/** The move-only owning handles of the public API. Each handle holds the
    backend's hooks (function pointers) and a pointer to one backend state,
    and calls its destroy hook on that state exactly when it still owns it.
    Function pointers are opaque ids; a state pointer is `None` (null) or
    the id of one backend state allocation. */
module Handles {
  import opened Config

  /** A hook field: a function pointer, null, or indeterminate (a member a
      constructor leaves uninitialised). */
  datatype FnPtr = Null | Hook(id: nat) | Indeterminate

  /** One `invoke(destroy_ptr_, state_)`. */
  datatype DestroyCall = DestroyCall(hook: FnPtr, state: nat)

  /** The destroy hooks invoked so far, in order. */
  class HookLog {
    var calls: seq<DestroyCall>

    constructor()
      ensures calls == []
    {
      calls := [];
    }
  }

  /** What a destructor (or the first half of a move assignment) invokes:
      the destroy hook on the state, if there is one. */
  function DestroyCallsOf(hook: FnPtr, state: Option<nat>): (r: seq<DestroyCall>)
    ensures |r| <= 1
    ensures r != [] <==> state.Some?
    ensures state.Some? ==> r == [DestroyCall(hook, state.value)]
  {
    match state
    case None => []
    case Some(s) => [DestroyCall(hook, s)]
  }

  /** The states the destroy hook calls `calls` release, in order. */
  function ReleasedBy(calls: seq<DestroyCall>): (r: seq<nat>)
    ensures |r| == |calls|
    ensures forall i :: 0 <= i < |calls| ==> r[i] == calls[i].state
  {
    if calls == [] then [] else [calls[0].state] + ReleasedBy(calls[1..])
  }

  // The class members below state their effect on ownership as one `Step`
  // of a world holding only the handles involved (see `Step` further down):
  // the owned states before and after, and the states released by the
  // destroy hooks the member invoked.

  // ---------------------------------------------------------------------
  // EnvironmentImpl

  class EnvironmentImpl {
    var destroy: FnPtr
    var addLight: FnPtr
    var removeLight: FnPtr
    var state: Option<nat>

    constructor(destroy: FnPtr, addLight: FnPtr, removeLight: FnPtr, state: Option<nat>)
      ensures this.destroy == destroy && this.addLight == addLight
      ensures this.removeLight == removeLight && this.state == state
    {
      this.destroy := destroy;
      this.addLight := addLight;
      this.removeLight := removeLight;
      this.state := state;
    }

    /** The move constructor: takes every hook and the state, and nulls the
        source's state. */
    constructor Move(o: EnvironmentImpl)
      modifies o
      ensures Step(World([old(o.state)], [true], [], []), HandleOp.MoveConstruct(0))
              == World([o.state, state], [true, true], [], [])
      ensures destroy == old(o.destroy) && addLight == old(o.addLight)
      ensures removeLight == old(o.removeLight) && state == old(o.state)
      ensures o.state == None
      ensures o.destroy == old(o.destroy) && o.addLight == old(o.addLight)
      ensures o.removeLight == old(o.removeLight)
    {
      destroy := o.destroy;
      addLight := o.addLight;
      removeLight := o.removeLight;
      state := o.state;
      new;
      o.state := None;
    }

    /** The destructor: the destroy hook runs iff a state is owned. */
    method Finalize(log: HookLog)
      modifies log
      ensures log.calls == old(log.calls) + DestroyCallsOf(destroy, state)
      ensures Step(World([state], [true], [], []), HandleOp.Destruct(0))
              == World([None], [false], [], ReleasedBy(log.calls[|old(log.calls)|..]))
    {
      if state.Some? {
        log.calls := log.calls + [DestroyCall(destroy, state.value)];
      }
    }

    /** The move assignment: destroy what is owned, take every hook and the
        state, null the source's state. Assigning a handle to itself
        destroys its state and leaves it null. */
    method MoveAssign(o: EnvironmentImpl, log: HookLog)
      modifies this, o, log
      ensures log.calls == old(log.calls) + DestroyCallsOf(old(destroy), old(state))
      ensures o != this ==>
                Step(World([old(state), old(o.state)], [true, true], [], []), HandleOp.MoveAssign(0, 1))
                == World([state, o.state], [true, true], [], ReleasedBy(log.calls[|old(log.calls)|..]))
      ensures o == this ==>
                Step(World([old(state)], [true], [], []), HandleOp.MoveAssign(0, 0))
                == World([state], [true], [], ReleasedBy(log.calls[|old(log.calls)|..]))
      ensures destroy == old(o.destroy) && addLight == old(o.addLight)
      ensures removeLight == old(o.removeLight)
      ensures state == (if o == this then None else old(o.state))
      ensures o.state == None
      ensures o != this ==> o.destroy == old(o.destroy) && o.addLight == old(o.addLight)
                            && o.removeLight == old(o.removeLight)
    {
      if state.Some? {
        log.calls := log.calls + [DestroyCall(destroy, state.value)];
      }
      destroy := o.destroy;
      addLight := o.addLight;
      removeLight := o.removeLight;
      state := o.state;
      o.state := None;
    }
  }

  // ---------------------------------------------------------------------
  // BakerImpl

  class BakerImpl {
    var destroy: FnPtr
    var init: FnPtr
    var bake: FnPtr
    var state: Option<nat>

    constructor(destroy: FnPtr, init: FnPtr, bake: FnPtr, state: Option<nat>)
      ensures this.destroy == destroy && this.init == init
      ensures this.bake == bake && this.state == state
    {
      this.destroy := destroy;
      this.init := init;
      this.bake := bake;
      this.state := state;
    }
  }

  // ---------------------------------------------------------------------
  // LoaderImpl

  class LoaderImpl {
    var destroy: FnPtr
    var loadScene: FnPtr
    var loadEnvMaps: FnPtr
    var state: Option<nat>

    constructor(destroy: FnPtr, loadScene: FnPtr, loadEnvMaps: FnPtr, state: Option<nat>)
      ensures this.destroy == destroy && this.loadScene == loadScene
      ensures this.loadEnvMaps == loadEnvMaps && this.state == state
    {
      this.destroy := destroy;
      this.loadScene := loadScene;
      this.loadEnvMaps := loadEnvMaps;
      this.state := state;
    }

    /** The move constructor: takes every hook and the state. */
    constructor Move(o: LoaderImpl)
      modifies o
      ensures Step(World([old(o.state)], [true], [], []), HandleOp.MoveConstruct(0))
              == World([o.state, state], [true, true], [], [])
      ensures destroy == old(o.destroy) && loadScene == old(o.loadScene)
      ensures loadEnvMaps == old(o.loadEnvMaps) && state == old(o.state)
      ensures o.state == None
      ensures o.destroy == old(o.destroy) && o.loadScene == old(o.loadScene)
      ensures o.loadEnvMaps == old(o.loadEnvMaps)
    {
      destroy := o.destroy;
      loadScene := o.loadScene;
      loadEnvMaps := o.loadEnvMaps;
      state := o.state;
      new;
      o.state := None;
    }

    method Finalize(log: HookLog)
      modifies log
      ensures log.calls == old(log.calls) + DestroyCallsOf(destroy, state)
      ensures Step(World([state], [true], [], []), HandleOp.Destruct(0))
              == World([None], [false], [], ReleasedBy(log.calls[|old(log.calls)|..]))
    {
      if state.Some? {
        log.calls := log.calls + [DestroyCall(destroy, state.value)];
      }
    }

    /** The move assignment as written: `load_env_maps_ptr_` is not taken,
        so the handle keeps its own env-map loader next to the source's
        scene loader and state. */
    method MoveAssign(o: LoaderImpl, log: HookLog)
      modifies this, o, log
      ensures log.calls == old(log.calls) + DestroyCallsOf(old(destroy), old(state))
      ensures o != this ==>
                Step(World([old(state), old(o.state)], [true, true], [], []), HandleOp.MoveAssign(0, 1))
                == World([state, o.state], [true, true], [], ReleasedBy(log.calls[|old(log.calls)|..]))
      ensures o == this ==>
                Step(World([old(state)], [true], [], []), HandleOp.MoveAssign(0, 0))
                == World([state], [true], [], ReleasedBy(log.calls[|old(log.calls)|..]))
      ensures destroy == old(o.destroy) && loadScene == old(o.loadScene)
      ensures loadEnvMaps == old(loadEnvMaps)
      ensures state == (if o == this then None else old(o.state))
      ensures o.state == None
      ensures o != this ==> o.destroy == old(o.destroy) && o.loadScene == old(o.loadScene)
                            && o.loadEnvMaps == old(o.loadEnvMaps)
    {
      if state.Some? {
        log.calls := log.calls + [DestroyCall(destroy, state.value)];
      }
      destroy := o.destroy;
      loadScene := o.loadScene;
      state := o.state;
      o.state := None;
    }

    /** The move assignment as the move constructor implies it: every hook
        travels with the state it belongs to. */
    method MoveAssignAll(o: LoaderImpl, log: HookLog)
      modifies this, o, log
      ensures log.calls == old(log.calls) + DestroyCallsOf(old(destroy), old(state))
      ensures o != this ==>
                Step(World([old(state), old(o.state)], [true, true], [], []), HandleOp.MoveAssign(0, 1))
                == World([state, o.state], [true, true], [], ReleasedBy(log.calls[|old(log.calls)|..]))
      ensures o == this ==>
                Step(World([old(state)], [true], [], []), HandleOp.MoveAssign(0, 0))
                == World([state], [true], [], ReleasedBy(log.calls[|old(log.calls)|..]))
      ensures destroy == old(o.destroy) && loadScene == old(o.loadScene)
      ensures loadEnvMaps == old(o.loadEnvMaps)
      ensures state == (if o == this then None else old(o.state))
      ensures o.state == None
      ensures o != this ==> o.destroy == old(o.destroy) && o.loadScene == old(o.loadScene)
                            && o.loadEnvMaps == old(o.loadEnvMaps)
    {
      if state.Some? {
        log.calls := log.calls + [DestroyCall(destroy, state.value)];
      }
      destroy := o.destroy;
      loadScene := o.loadScene;
      loadEnvMaps := o.loadEnvMaps;
      state := o.state;
      o.state := None;
    }
  }

  // ---------------------------------------------------------------------
  // RendererImpl

  class RendererImpl {
    var destroy: FnPtr
    var makeBaker: FnPtr
    var makeLoader: FnPtr
    var makeEnv: FnPtr
    var setEnvMaps: FnPtr
    var makeBatch: FnPtr
    var render: FnPtr
    var bake: FnPtr
    var wait: FnPtr
    var getOutput: FnPtr
    var getBakeOutput: FnPtr
    var getAux: FnPtr
    var state: Option<nat>

    constructor(destroy: FnPtr, makeBaker: FnPtr, makeLoader: FnPtr, makeEnv: FnPtr,
                setEnvMaps: FnPtr, makeBatch: FnPtr, render: FnPtr, bake: FnPtr,
                wait: FnPtr, getOutput: FnPtr, getBakeOutput: FnPtr, getAux: FnPtr,
                state: Option<nat>)
      ensures this.destroy == destroy && this.makeBaker == makeBaker
      ensures this.makeLoader == makeLoader && this.makeEnv == makeEnv
      ensures this.setEnvMaps == setEnvMaps && this.makeBatch == makeBatch
      ensures this.render == render && this.bake == bake && this.wait == wait
      ensures this.getOutput == getOutput && this.getBakeOutput == getBakeOutput
      ensures this.getAux == getAux && this.state == state
    {
      this.destroy := destroy;
      this.makeBaker := makeBaker;
      this.makeLoader := makeLoader;
      this.makeEnv := makeEnv;
      this.setEnvMaps := setEnvMaps;
      this.makeBatch := makeBatch;
      this.render := render;
      this.bake := bake;
      this.wait := wait;
      this.getOutput := getOutput;
      this.getBakeOutput := getBakeOutput;
      this.getAux := getAux;
      this.state := state;
    }

    /** The move constructor as written: `make_baker_ptr_` and
        `make_batch_ptr_` are missing from its initialiser list and are left
        indeterminate. */
    constructor Move(o: RendererImpl)
      modifies o
      ensures Step(World([old(o.state)], [true], [], []), HandleOp.MoveConstruct(0))
              == World([o.state, state], [true, true], [], [])
      ensures destroy == old(o.destroy) && makeLoader == old(o.makeLoader)
      ensures makeEnv == old(o.makeEnv) && setEnvMaps == old(o.setEnvMaps)
      ensures render == old(o.render) && bake == old(o.bake) && wait == old(o.wait)
      ensures getOutput == old(o.getOutput) && getBakeOutput == old(o.getBakeOutput)
      ensures getAux == old(o.getAux) && state == old(o.state)
      ensures makeBaker == Indeterminate && makeBatch == Indeterminate
      ensures o.state == None
    {
      destroy := o.destroy;
      makeBaker := Indeterminate;
      makeLoader := o.makeLoader;
      makeEnv := o.makeEnv;
      setEnvMaps := o.setEnvMaps;
      makeBatch := Indeterminate;
      render := o.render;
      bake := o.bake;
      wait := o.wait;
      getOutput := o.getOutput;
      getBakeOutput := o.getBakeOutput;
      getAux := o.getAux;
      state := o.state;
      new;
      o.state := None;
    }

    /** The move constructor with every hook taken. */
    constructor MoveAll(o: RendererImpl)
      modifies o
      ensures Step(World([old(o.state)], [true], [], []), HandleOp.MoveConstruct(0))
              == World([o.state, state], [true, true], [], [])
      ensures destroy == old(o.destroy) && makeLoader == old(o.makeLoader)
      ensures makeEnv == old(o.makeEnv) && setEnvMaps == old(o.setEnvMaps)
      ensures render == old(o.render) && bake == old(o.bake) && wait == old(o.wait)
      ensures getOutput == old(o.getOutput) && getBakeOutput == old(o.getBakeOutput)
      ensures getAux == old(o.getAux) && state == old(o.state)
      ensures makeBaker == old(o.makeBaker) && makeBatch == old(o.makeBatch)
      ensures o.state == None
    {
      destroy := o.destroy;
      makeBaker := o.makeBaker;
      makeLoader := o.makeLoader;
      makeEnv := o.makeEnv;
      setEnvMaps := o.setEnvMaps;
      makeBatch := o.makeBatch;
      render := o.render;
      bake := o.bake;
      wait := o.wait;
      getOutput := o.getOutput;
      getBakeOutput := o.getBakeOutput;
      getAux := o.getAux;
      state := o.state;
      new;
      o.state := None;
    }

    method Finalize(log: HookLog)
      modifies log
      ensures log.calls == old(log.calls) + DestroyCallsOf(destroy, state)
      ensures Step(World([state], [true], [], []), HandleOp.Destruct(0))
              == World([None], [false], [], ReleasedBy(log.calls[|old(log.calls)|..]))
    {
      Release(log);
    }

    /** `if (state_) invoke(destroy_ptr_, state_)`, the start of the
        destructor and of the move assignment. */
    method Release(log: HookLog)
      modifies log
      ensures log.calls == old(log.calls) + DestroyCallsOf(destroy, state)
      ensures Step(World([state], [true], [], []), HandleOp.Destruct(0))
              == World([None], [false], [], ReleasedBy(log.calls[|old(log.calls)|..]))
    {
      if state.Some? {
        log.calls := log.calls + [DestroyCall(destroy, state.value)];
      }
    }

    /** The move assignment as written: only destroy, make_loader, make_env,
        render, wait, get_output, get_aux and the state are taken; the
        handle keeps its own make_baker, set_env_maps, make_batch, bake and
        get_bake_output hooks. */
    method MoveAssign(o: RendererImpl, log: HookLog)
      modifies this, o, log
      ensures log.calls == old(log.calls) + DestroyCallsOf(old(destroy), old(state))
      ensures o != this ==>
                Step(World([old(state), old(o.state)], [true, true], [], []), HandleOp.MoveAssign(0, 1))
                == World([state, o.state], [true, true], [], ReleasedBy(log.calls[|old(log.calls)|..]))
      ensures o == this ==>
                Step(World([old(state)], [true], [], []), HandleOp.MoveAssign(0, 0))
                == World([state], [true], [], ReleasedBy(log.calls[|old(log.calls)|..]))
      ensures destroy == old(o.destroy) && makeLoader == old(o.makeLoader)
      ensures makeEnv == old(o.makeEnv) && render == old(o.render) && wait == old(o.wait)
      ensures getOutput == old(o.getOutput) && getAux == old(o.getAux)
      ensures makeBaker == old(makeBaker) && setEnvMaps == old(setEnvMaps)
      ensures makeBatch == old(makeBatch) && bake == old(bake)
      ensures getBakeOutput == old(getBakeOutput)
      ensures state == (if o == this then None else old(o.state))
      ensures o.state == None
    {
      if state.Some? {
        log.calls := log.calls + [DestroyCall(destroy, state.value)];
      }
      destroy, makeLoader, makeEnv := o.destroy, o.makeLoader, o.makeEnv;
      render, wait, getOutput, getAux := o.render, o.wait, o.getOutput, o.getAux;
      state := o.state;
      o.state := None;
    }

    /** Copies every hook of `o` into this handle. */
    method TakeHooks(o: RendererImpl)
      modifies this
      ensures destroy == old(o.destroy) && makeLoader == old(o.makeLoader)
      ensures makeEnv == old(o.makeEnv) && render == old(o.render) && wait == old(o.wait)
      ensures getOutput == old(o.getOutput) && getAux == old(o.getAux)
      ensures makeBaker == old(o.makeBaker) && setEnvMaps == old(o.setEnvMaps)
      ensures makeBatch == old(o.makeBatch) && bake == old(o.bake)
      ensures getBakeOutput == old(o.getBakeOutput)
      ensures state == old(state) && o.state == old(o.state)
    {
      destroy, makeBaker, makeLoader, makeEnv := o.destroy, o.makeBaker, o.makeLoader, o.makeEnv;
      setEnvMaps, makeBatch, render, bake := o.setEnvMaps, o.makeBatch, o.render, o.bake;
      wait, getOutput, getBakeOutput, getAux := o.wait, o.getOutput, o.getBakeOutput, o.getAux;
    }

    /** The move assignment with every hook taken. */
    method MoveAssignAll(o: RendererImpl, log: HookLog)
      modifies this, o, log
      ensures log.calls == old(log.calls) + DestroyCallsOf(old(destroy), old(state))
      ensures o != this ==>
                Step(World([old(state), old(o.state)], [true, true], [], []), HandleOp.MoveAssign(0, 1))
                == World([state, o.state], [true, true], [], ReleasedBy(log.calls[|old(log.calls)|..]))
      ensures o == this ==>
                Step(World([old(state)], [true], [], []), HandleOp.MoveAssign(0, 0))
                == World([state], [true], [], ReleasedBy(log.calls[|old(log.calls)|..]))
      ensures destroy == old(o.destroy) && makeLoader == old(o.makeLoader)
      ensures makeEnv == old(o.makeEnv) && render == old(o.render) && wait == old(o.wait)
      ensures getOutput == old(o.getOutput) && getAux == old(o.getAux)
      ensures makeBaker == old(o.makeBaker) && setEnvMaps == old(o.setEnvMaps)
      ensures makeBatch == old(o.makeBatch) && bake == old(o.bake)
      ensures getBakeOutput == old(o.getBakeOutput)
      ensures state == (if o == this then None else old(o.state))
      ensures o.state == None
    {
      Release(log);
      TakeHooks(o);
      state := o.state;
      o.state := None;
    }
  }

  // ---------------------------------------------------------------------
  // Ownership over many handles

  /** The ownership side of every handle of one kind: the state each
      handle owns (None once moved from or destroyed), whether it is still
      alive, every state ever handed to a constructor, and the states
      destroyed so far. State ids name allocations and are never reused. */
  datatype World = World(owned: seq<Option<nat>>, alive: seq<bool>, made: seq<nat>, destroyed: seq<nat>)

  /** Construction from a fresh backend state, move construction from a
      handle, move assignment between two handles (possibly the same one),
      and destruction. */
  datatype HandleOp = Make(s: nat) | MoveConstruct(src: nat) | MoveAssign(dst: nat, src: nat) | Destruct(h: nat)

  const NoHandles: World := World([], [], [], [])

  /** The states a destroy hook call on `p` releases. */
  function Released(p: Option<nat>): (r: seq<nat>)
    ensures p.None? ==> r == []
    ensures p.Some? ==> r == [p.value]
  {
    match p
    case None => []
    case Some(s) => [s]
  }

  predicate Allowed(w: World, op: HandleOp)
  {
    && |w.owned| == |w.alive|
    && match op
       case Make(s) => s !in w.made
       case MoveConstruct(src) => src < |w.owned| && w.alive[src]
       case MoveAssign(dst, src) => dst < |w.owned| && w.alive[dst] && src < |w.owned| && w.alive[src]
       case Destruct(h) => h < |w.owned| && w.alive[h]
  }

  /** The effect of one operation on the ownership side, as the
      constructors, move operations and destructors above have it. */
  function Step(w: World, op: HandleOp): (w': World)
    requires Allowed(w, op)
    ensures |w'.owned| == |w'.alive|
  {
    match op
    case Make(s) =>
      World(w.owned + [Some(s)], w.alive + [true], w.made + [s], w.destroyed)
    case MoveConstruct(src) =>
      World(w.owned[src := None] + [w.owned[src]], w.alive + [true], w.made, w.destroyed)
    case MoveAssign(dst, src) =>
      World(w.owned[dst := w.owned[src]][src := None], w.alive, w.made,
            w.destroyed + Released(w.owned[dst]))
    case Destruct(h) =>
      World(w.owned[h := None], w.alive[h := false], w.made, w.destroyed + Released(w.owned[h]))
  }

  predicate NoDup(s: seq<nat>)
  {
    forall i, j :: 0 <= i < j < |s| ==> s[i] != s[j]
  }

  /** The ownership invariant: dead handles own nothing, no two handles own
      the same state, no owned state has been destroyed, no state has been
      destroyed twice, and every state made is either destroyed or owned. */
  ghost predicate Sound(w: World)
  {
    && |w.owned| == |w.alive|
    && (forall h :: 0 <= h < |w.owned| && !w.alive[h] ==> w.owned[h] == None)
    && (forall h, k :: 0 <= h < k < |w.owned| && w.owned[h].Some? ==> w.owned[h] != w.owned[k])
    && (forall h :: 0 <= h < |w.owned| && w.owned[h].Some? ==> w.owned[h].value !in w.destroyed)
    && NoDup(w.destroyed)
    && (forall s :: s in w.made <==> (s in w.destroyed || Some(s) in w.owned))
  }

  lemma NoHandlesSound()
    ensures Sound(NoHandles)
  {
  }

  lemma NoDupAppend(s: seq<nat>, x: nat)
    requires NoDup(s) && x !in s
    ensures NoDup(s + [x])
  {
  }

  lemma MakeKeepsSound(w: World, s: nat)
    requires Sound(w) && Allowed(w, Make(s))
    ensures Sound(Step(w, Make(s)))
  {
    var w' := Step(w, Make(s));
    forall h, k | 0 <= h < k < |w'.owned| && w'.owned[h].Some?
      ensures w'.owned[h] != w'.owned[k]
    {
      if k == |w.owned| {
        assert w.owned[h] in w.owned;
      }
    }
    forall t ensures t in w'.made <==> (t in w'.destroyed || Some(t) in w'.owned)
    {
      if Some(t) in w'.owned && t != s {
        var h :| 0 <= h < |w'.owned| && w'.owned[h] == Some(t);
        assert w.owned[h] == Some(t);
      }
    }
  }

  lemma MoveConstructKeepsSound(w: World, src: nat)
    requires Sound(w) && Allowed(w, MoveConstruct(src))
    ensures Sound(Step(w, MoveConstruct(src)))
  {
    var w' := Step(w, MoveConstruct(src));
    var n := |w.owned|;
    forall h, k | 0 <= h < k < |w'.owned| && w'.owned[h].Some?
      ensures w'.owned[h] != w'.owned[k]
    {
      if k == n {
        assert h != src;
        if h < src {
          assert w.owned[h] != w.owned[src];
        } else {
          assert w.owned[src] != w.owned[h];
        }
      }
    }
    forall t ensures t in w'.made <==> (t in w'.destroyed || Some(t) in w'.owned)
    {
      if Some(t) in w.owned {
        var h :| 0 <= h < n && w.owned[h] == Some(t);
        if h == src {
          assert w'.owned[n] == Some(t);
        } else {
          assert w'.owned[h] == Some(t);
        }
      }
      if Some(t) in w'.owned {
        var h :| 0 <= h < |w'.owned| && w'.owned[h] == Some(t);
        if h == n {
          assert w.owned[src] == Some(t);
        } else {
          assert w.owned[h] == Some(t);
        }
      }
    }
  }

  lemma MoveAssignKeepsSound(w: World, dst: nat, src: nat)
    requires Sound(w) && Allowed(w, MoveAssign(dst, src))
    ensures Sound(Step(w, MoveAssign(dst, src)))
  {
    var w' := Step(w, MoveAssign(dst, src));
    var n := |w.owned|;
    forall h, k | 0 <= h < k < n && w'.owned[h].Some?
      ensures w'.owned[h] != w'.owned[k]
    {
      var oh := if h == dst then src else h;
      var ok := if k == dst then src else k;
      assert w'.owned[h] == w.owned[oh];
      if w'.owned[k].Some? {
        assert w'.owned[k] == w.owned[ok];
        assert oh != ok;
        if oh < ok {
          assert w.owned[oh] != w.owned[ok];
        } else {
          assert w.owned[ok] != w.owned[oh];
        }
      }
    }
    forall h | 0 <= h < n && w'.owned[h].Some?
      ensures w'.owned[h].value !in w'.destroyed
    {
      var oh := if h == dst then src else h;
      assert w'.owned[h] == w.owned[oh];
      if w.owned[dst].Some? {
        assert oh != dst;
        if oh < dst {
          assert w.owned[oh] != w.owned[dst];
        } else {
          assert w.owned[dst] != w.owned[oh];
        }
      }
    }
    if w.owned[dst].Some? {
      NoDupAppend(w.destroyed, w.owned[dst].value);
    }
    forall t ensures t in w'.made <==> (t in w'.destroyed || Some(t) in w'.owned)
    {
      if Some(t) in w.owned {
        var h :| 0 <= h < n && w.owned[h] == Some(t);
        if h == dst {
          assert t in w'.destroyed;
        } else if h == src {
          assert w'.owned[dst] == Some(t);
        } else {
          assert w'.owned[h] == Some(t);
        }
      }
      if Some(t) in w'.owned {
        var h :| 0 <= h < n && w'.owned[h] == Some(t);
        if h == dst {
          assert w.owned[src] == Some(t);
        } else {
          assert w.owned[h] == Some(t);
        }
      }
    }
  }

  lemma DestructKeepsSound(w: World, h0: nat)
    requires Sound(w) && Allowed(w, Destruct(h0))
    ensures Sound(Step(w, Destruct(h0)))
  {
    var w' := Step(w, Destruct(h0));
    var n := |w.owned|;
    forall h | 0 <= h < n && w'.owned[h].Some?
      ensures w'.owned[h].value !in w'.destroyed
    {
      if w.owned[h0].Some? {
        if h < h0 {
          assert w.owned[h] != w.owned[h0];
        } else {
          assert w.owned[h0] != w.owned[h];
        }
      }
    }
    if w.owned[h0].Some? {
      NoDupAppend(w.destroyed, w.owned[h0].value);
    }
    forall t ensures t in w'.made <==> (t in w'.destroyed || Some(t) in w'.owned)
    {
      if Some(t) in w.owned {
        var h :| 0 <= h < n && w.owned[h] == Some(t);
        if h == h0 {
          assert t in w'.destroyed;
        } else {
          assert w'.owned[h] == Some(t);
        }
      }
      if Some(t) in w'.owned {
        var h :| 0 <= h < n && w'.owned[h] == Some(t);
        assert w.owned[h] == Some(t);
      }
    }
  }

  /** Every operation keeps the ownership invariant. */
  lemma StepKeepsSound(w: World, op: HandleOp)
    requires Sound(w) && Allowed(w, op)
    ensures Sound(Step(w, op))
  {
    match op
    case Make(s) => MakeKeepsSound(w, s);
    case MoveConstruct(src) => MoveConstructKeepsSound(w, src);
    case MoveAssign(dst, src) => MoveAssignKeepsSound(w, dst, src);
    case Destruct(h) => DestructKeepsSound(w, h);
  }

  /** A run of operations; None once one of them is not allowed (a handle
      used after its destructor, or a state handed to two constructors). */
  function Run(w: World, ops: seq<HandleOp>): Option<World>
    decreases |ops|
  {
    if ops == [] then Some(w)
    else if !Allowed(w, ops[0]) then None
    else Run(Step(w, ops[0]), ops[1..])
  }

  lemma {:induction false} RunKeepsSound(w: World, ops: seq<HandleOp>)
    requires Sound(w) && Run(w, ops).Some?
    ensures Sound(Run(w, ops).value)
    decreases |ops|
  {
    if ops != [] {
      StepKeepsSound(w, ops[0]);
      RunKeepsSound(Step(w, ops[0]), ops[1..]);
    }
  }

  /** At most one destroy: over any run of constructions, moves and
      destructions, no backend state is destroyed twice, and a state still
      owned by a handle has not been destroyed. */
  lemma AtMostOneDestroy(ops: seq<HandleOp>)
    requires Run(NoHandles, ops).Some?
    ensures NoDup(Run(NoHandles, ops).value.destroyed)
    ensures var w := Run(NoHandles, ops).value;
      forall h :: 0 <= h < |w.owned| && w.owned[h].Some? ==> w.owned[h].value !in w.destroyed
  {
    NoHandlesSound();
    RunKeepsSound(NoHandles, ops);
  }

  /** Nothing leaks: once no handle owns a state, every state ever handed
      to a constructor has been destroyed. */
  lemma NoLeakOnceReleased(ops: seq<HandleOp>)
    requires Run(NoHandles, ops).Some?
    requires forall h :: 0 <= h < |Run(NoHandles, ops).value.owned| ==> Run(NoHandles, ops).value.owned[h] == None
    ensures forall s :: s in Run(NoHandles, ops).value.made ==> s in Run(NoHandles, ops).value.destroyed
  {
    NoHandlesSound();
    RunKeepsSound(NoHandles, ops);
  }

  /** A moved-from handle destroys nothing. */
  lemma MovedFromDestroysNothing(w: World, src: nat)
    requires Allowed(w, MoveConstruct(src))
    ensures var w' := Step(w, MoveConstruct(src));
      Allowed(w', Destruct(src)) && Step(w', Destruct(src)).destroyed == w.destroyed
  {
  }

  /** Assigning a handle to itself destroys its state once and leaves it
      owning nothing. */
  lemma SelfMoveAssignReleases(w: World, h: nat)
    requires Allowed(w, MoveAssign(h, h))
    ensures Step(w, MoveAssign(h, h)).destroyed == w.destroyed + Released(w.owned[h])
    ensures Step(w, MoveAssign(h, h)).owned[h] == None
  {
  }
}
