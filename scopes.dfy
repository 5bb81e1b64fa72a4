/** Scopes: each scope maps names to expressions and may have an outer scope;
    a lookup takes the innermost binding along the chain. */
module Scopes {
  import opened Values

  type Frame = map<string, Expr>

  /** The binding of `name` in a chain of frames, innermost first. */
  function ScopeLookup(frames: seq<Frame>, name: string): Option<Expr>
    decreases |frames|
  {
    if |frames| == 0 then None
    else if name in frames[0] then Some(frames[0][name])
    else ScopeLookup(frames[1..], name)
  }

  /** A lookup finds the innermost frame that binds the name. */
  lemma {:induction false} LookupFindsInnermost(frames: seq<Frame>, name: string, k: nat)
    requires k < |frames| && name in frames[k]
    requires forall j :: 0 <= j < k ==> name !in frames[j]
    ensures ScopeLookup(frames, name) == Some(frames[k][name])
    decreases k
  {
    if k > 0 {
      LookupFindsInnermost(frames[1..], name, k - 1);
    }
  }

  /** A lookup is absent exactly when no frame binds the name. */
  lemma {:induction false} LookupAbsent(frames: seq<Frame>, name: string)
    ensures ScopeLookup(frames, name).None? <==> forall j :: 0 <= j < |frames| ==> name !in frames[j]
    decreases |frames|
  {
    if |frames| > 0 {
      LookupAbsent(frames[1..], name);
      assert forall j :: 1 <= j < |frames| ==> frames[j] == frames[1..][j - 1];
    }
  }

  /** `Environment`: a mutable frame and an optional outer scope that never
      changes. `depth` and `ancestors` are there for the proofs only: they
      make the chain finite and acyclic. */
  class Environment {
    const outer: Environment?
    var vars: Frame
    const depth: nat
    ghost const ancestors: set<Environment>

    ghost predicate Valid()
      decreases depth
    {
      && (forall a :: a in ancestors ==> a.depth < depth)
      && (outer == null ==> ancestors == {})
      && (outer != null ==>
            && ancestors == {outer} + outer.ancestors
            && outer.Valid())
    }

    constructor (outer: Environment?)
      requires outer != null ==> outer.Valid()
      ensures Valid() && this.outer == outer && vars == map[]
    {
      this.outer := outer;
      vars := map[];
      depth := if outer == null then 0 else outer.depth + 1;
      ancestors := if outer == null then {} else {outer} + outer.ancestors;
    }

    /** The frames of the chain, this one first. */
    function Frames(): (fs: seq<Frame>)
      requires Valid()
      reads this, ancestors
      ensures |fs| > 0 && fs[0] == vars
      decreases depth, 1
    {
      [vars] + OuterFrames()
    }

    /** The frames of the enclosing scopes, innermost first. */
    function OuterFrames(): seq<Frame>
      requires Valid()
      reads ancestors
      decreases depth, 0
    {
      if outer == null then [] else outer.Frames()
    }

    /** `add`: bind in this scope only, replacing any earlier binding here. */
    method Add(name: string, e: Expr)
      modifies this
      ensures vars == old(vars)[name := e]
    {
      vars := vars[name := e];
    }

    /** `lookup`: this scope's binding, else the outer scope's lookup. */
    function Lookup(name: string): (r: Option<Expr>)
      requires Valid()
      reads this, ancestors
      ensures r == ScopeLookup(Frames(), name)
      decreases depth
    {
      if name in vars then Some(vars[name])
      else if outer == null then None
      else outer.Lookup(name)
    }
  }
}
