/** The renderer SDK as the demo script uses it, reduced to what can be
    observed from the outside: every call that touches the render session
    is appended to an event log, with its arguments, and the outcome of each
    render call comes from an oracle. */
module Arnold {

  /** An `AtMatrix` value: 4 rows of 4 cells. */
  type Matrix<T> = seq<seq<T>>

  predicate Is4x4<T>(m: Matrix<T>) {
    |m| == 4 && forall y :: 0 <= y < 4 ==> |m[y]| == 4
  }

  /** A handle returned by `AiNodeLookUpByName`, identified by the node's name. */
  datatype NodeRef = NodeRef(name: string)

  /** The console filter set by `AiMsgSetConsoleFlags`. */
  datatype LogFlags = LogAll

  /** The value a node's matrix parameter receives: one static matrix, or one
      matrix per motion key. */
  datatype Attr<T> = Static(m: Matrix<T>) | Sampled(keys: seq<Matrix<T>>)

  /** One SDK call as it is observed by the render session. */
  datatype Event<T> =
    | Begun                                              // AiBegin
    | ConsoleFlagsSet(flags: LogFlags)                   // AiMsgSetConsoleFlags
    | SceneLoaded(path: string)                          // AiASSLoad
    | LookedUp(name: string)                             // AiNodeLookUpByName
    | StrSet(node: NodeRef, param: string, s: string)    // AiNodeSetStr
    | MatrixSet(node: NodeRef, param: string, m: Matrix<T>)  // AiNodeSetMatrix
    | ArraySet(node: NodeRef, param: string, nelements: nat, nkeys: nat, data: seq<Matrix<T>>)  // AiNodeSetArray
    | Rendered(ok: bool)                                 // AiRender, and whether it returned AI_SUCCESS
    | Ended                                              // AiEnd

  /** The event that attaching `attr` to the matrix parameter of `node` produces. */
  function AttrEvent<T>(node: NodeRef, attr: Attr<T>): Event<T> {
    match attr
    case Static(m) => MatrixSet(node, "matrix", m)
    case Sampled(keys) => ArraySet(node, "matrix", 1, |keys|, keys)
  }

  /** An `AtArray` of matrices: `nelements` elements with `nkeys` motion keys
      each, filled slot by slot. */
  class AtArray<T> {
    const nelements: nat
    const nkeys: nat
    const data: array<Matrix<T>>

    ghost predicate Valid() {
      data.Length == nelements * nkeys
    }

    /** `AiArrayAllocate(nelements, nkeys, AI_TYPE_MATRIX)`. */
    constructor Allocate(nelements: nat, nkeys: nat)
      ensures Valid() && fresh(data)
      ensures this.nelements == nelements && this.nkeys == nkeys
    {
      this.nelements := nelements;
      this.nkeys := nkeys;
      data := new Matrix<T>[nelements * nkeys];
    }

    /** `AiArraySetMtx(array, i, m)`. */
    method SetMtx(i: nat, m: Matrix<T>)
      requires Valid() && i < data.Length
      modifies data
      ensures data[..] == old(data[..])[i := m]
    {
      data[i] := m;
    }
  }

  /** The process-wide render session: the calls made so far and the number
      of render calls among them. `oracle(n)` says whether the n-th render
      call (counting from 0) returns AI_SUCCESS. */
  class Session<T> {
    const oracle: nat -> bool
    var log: seq<Event<T>>
    var renders: nat

    constructor (oracle: nat -> bool)
      ensures this.oracle == oracle && log == [] && renders == 0
    {
      this.oracle := oracle;
      log := [];
      renders := 0;
    }

    method Begin()
      modifies this
      ensures log == old(log) + [Begun] && renders == old(renders)
    {
      log := log + [Begun];
    }

    method MsgSetConsoleFlags(flags: LogFlags)
      modifies this
      ensures log == old(log) + [ConsoleFlagsSet(flags)] && renders == old(renders)
    {
      log := log + [ConsoleFlagsSet(flags)];
    }

    method AssLoad(path: string)
      modifies this
      ensures log == old(log) + [SceneLoaded(path)] && renders == old(renders)
    {
      log := log + [SceneLoaded(path)];
    }

    method NodeLookUpByName(name: string) returns (node: NodeRef)
      modifies this
      ensures node == NodeRef(name)
      ensures log == old(log) + [LookedUp(name)] && renders == old(renders)
    {
      node := NodeRef(name);
      log := log + [LookedUp(name)];
    }

    method NodeSetStr(node: NodeRef, param: string, s: string)
      modifies this
      ensures log == old(log) + [StrSet(node, param, s)] && renders == old(renders)
    {
      log := log + [StrSet(node, param, s)];
    }

    method NodeSetMatrix(node: NodeRef, param: string, m: Matrix<T>)
      modifies this
      ensures log == old(log) + [MatrixSet(node, param, m)] && renders == old(renders)
    {
      log := log + [MatrixSet(node, param, m)];
    }

    /** The node takes the array's current contents. */
    method NodeSetArray(node: NodeRef, param: string, a: AtArray<T>)
      modifies this
      ensures log == old(log) + [ArraySet(node, param, a.nelements, a.nkeys, a.data[..])]
      ensures renders == old(renders)
    {
      log := log + [ArraySet(node, param, a.nelements, a.nkeys, a.data[..])];
    }

    method Render() returns (ok: bool)
      modifies this
      ensures ok == oracle(old(renders))
      ensures log == old(log) + [Rendered(ok)] && renders == old(renders) + 1
    {
      ok := oracle(renders);
      log := log + [Rendered(ok)];
      renders := renders + 1;
    }

    method End()
      modifies this
      ensures log == old(log) + [Ended] && renders == old(renders)
    {
      log := log + [Ended];
    }
  }
}
