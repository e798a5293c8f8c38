/** Queue set-up (initTransferQueues, initComputeQueues) and the queues a
    loader is handed (makeLoader). Compute queues 0 and 1 belong to the
    renderer; the rest, when the device has any, are shared out among the
    loaders round-robin. A queue whose `shared` flag is set is submitted to
    under a lock, so the flag must be set whenever two users can meet on it. */
module Queues {

  datatype QueueFamily = Transfer | Compute

  datatype QueueState = QueueState(family: QueueFamily, index: nat, shared: bool)

  /** Compute queues left over for loaders once the renderer has its two. */
  function NumTransferComputeQueues(numComputeQueues: nat): (r: nat)
    ensures r + 2 >= numComputeQueues && r <= numComputeQueues
    ensures r > 0 ==> r == numComputeQueues - 2
  {
    if numComputeQueues >= 2 then numComputeQueues - 2 else 0
  }

  /** initTransferQueues: every transfer queue is shared exactly when there
      are more loaders than transfer queues. */
  method InitTransferQueues(numLoaders: nat, numTransferQueues: nat) returns (queues: seq<QueueState>)
    ensures |queues| == numTransferQueues
    ensures forall i :: 0 <= i < |queues| ==>
              queues[i] == QueueState(Transfer, i, numLoaders > numTransferQueues)
  {
    var transferShared := numLoaders > numTransferQueues;
    queues := [];
    for i := 0 to numTransferQueues
      invariant |queues| == i
      invariant forall j :: 0 <= j < i ==> queues[j] == QueueState(Transfer, j, transferShared)
    {
      queues := queues + [QueueState(Transfer, i, transferShared)];
    }
  }

  /** Whether compute queue `i` is flagged shared by initComputeQueues. */
  predicate ComputeShared(numLoaders: nat, numComputeQueues: nat, i: nat)
  {
    var ntc := NumTransferComputeQueues(numComputeQueues);
    ntc == 0 || (i >= 2 && numLoaders > ntc)
  }

  /** initComputeQueues. */
  method InitComputeQueues(numLoaders: nat, numComputeQueues: nat) returns (queues: seq<QueueState>)
    ensures |queues| == numComputeQueues
    ensures forall i :: 0 <= i < |queues| ==>
              queues[i].family == Compute && queues[i].index == i &&
              queues[i].shared == ComputeShared(numLoaders, numComputeQueues, i)
  {
    var ntc := if numComputeQueues >= 2 then numComputeQueues - 2 else 0;
    var loadersShared := numLoaders > ntc;
    queues := [];
    for i := 0 to numComputeQueues
      invariant |queues| == i
      invariant forall j :: 0 <= j < i ==>
                  queues[j] == QueueState(Compute, j, ComputeShared(numLoaders, numComputeQueues, j))
    {
      var shared := ntc == 0 || (i >= 2 && loadersShared);
      queues := queues + [QueueState(Compute, i, shared)];
    }
  }

  /** The queues makeLoader hands to loader number `loaderIdx`. */
  datatype LoaderQueues = LoaderQueues(computeIdx: nat, transferIdx: nat)

  /** makeLoader's queue choice. The transfer index is taken modulo the
      number of transfer queues, so that number must be positive. */
  function PickLoaderQueues(loaderIdx: nat, numComputeQueues: nat, numTransferQueues: nat)
    : (q: LoaderQueues)
    requires numComputeQueues > 0 && numTransferQueues > 0
    ensures q.computeIdx < numComputeQueues && q.transferIdx < numTransferQueues
    ensures NumTransferComputeQueues(numComputeQueues) > 0 ==> q.computeIdx >= 2
  {
    var ntc := NumTransferComputeQueues(numComputeQueues);
    LoaderQueues(if ntc == 0 then 0 else loaderIdx % ntc + 2, loaderIdx % numTransferQueues)
  }

  lemma ModOfSmall(a: nat, n: nat)
    requires a < n
    ensures a % n == a
  {
  }

  /** Two different loaders that end up on the same compute queue find it
      flagged shared, as long as both were created within the configured
      loader count (the assertion in makeLoader). */
  lemma ComputeSharingIsFlagged(a: nat, b: nat, numLoaders: nat, numComputeQueues: nat,
                                numTransferQueues: nat)
    requires numComputeQueues > 0 && numTransferQueues > 0
    requires a < numLoaders && b < numLoaders && a != b
    requires PickLoaderQueues(a, numComputeQueues, numTransferQueues).computeIdx ==
             PickLoaderQueues(b, numComputeQueues, numTransferQueues).computeIdx
    ensures ComputeShared(numLoaders, numComputeQueues,
                          PickLoaderQueues(a, numComputeQueues, numTransferQueues).computeIdx)
  {
    var ntc := NumTransferComputeQueues(numComputeQueues);
    if ntc > 0 && numLoaders <= ntc {
      ModOfSmall(a, ntc);
      ModOfSmall(b, ntc);
    }
  }

  /** The same for transfer queues. */
  lemma TransferSharingIsFlagged(a: nat, b: nat, numLoaders: nat, numComputeQueues: nat,
                                 numTransferQueues: nat)
    requires numComputeQueues > 0 && numTransferQueues > 0
    requires a < numLoaders && b < numLoaders && a != b
    requires PickLoaderQueues(a, numComputeQueues, numTransferQueues).transferIdx ==
             PickLoaderQueues(b, numComputeQueues, numTransferQueues).transferIdx
    ensures numLoaders > numTransferQueues
  {
    if numLoaders <= numTransferQueues {
      ModOfSmall(a, numTransferQueues);
      ModOfSmall(b, numTransferQueues);
    }
  }

  /** A loader only lands on one of the renderer's queues (0 or 1) when no
      other compute queue exists, and then that queue is flagged shared. */
  lemma RenderQueuesProtected(loaderIdx: nat, numLoaders: nat, numComputeQueues: nat,
                              numTransferQueues: nat)
    requires numComputeQueues > 0 && numTransferQueues > 0
    requires PickLoaderQueues(loaderIdx, numComputeQueues, numTransferQueues).computeIdx < 2
    ensures NumTransferComputeQueues(numComputeQueues) == 0
    ensures ComputeShared(numLoaders, numComputeQueues,
                          PickLoaderQueues(loaderIdx, numComputeQueues, numTransferQueues).computeIdx)
  {
  }

  /** Without the loader-count assertion the flags would not be enough: with
      one loader and three compute queues, loader 1 would meet loader 0 on
      compute queue 2, which is not flagged shared. */
  lemma LoaderBeyondCountMeetsUnflaggedQueue()
    ensures PickLoaderQueues(0, 3, 1).computeIdx == PickLoaderQueues(1, 3, 1).computeIdx == 2
    ensures !ComputeShared(1, 3, 2)
  {
  }
}
