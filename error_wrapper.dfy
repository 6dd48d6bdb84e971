/** `cepton_sdk::SensorErrorWrapper`: adds a line of context to an error on its
    way up a call chain, keeping the original code.
 */
module ErrorWrappers {
  import opened ErrorCodes
  import opened SensorErrors

  /** The separator `operator=` puts between the context and the inner message. */
  const Separator: string := "\n\t"

  /** The value `operator=` constructs from `inner`: a plain success when
      `inner` is one, otherwise the same code with the context and the
      separator in front of the inner message.  It starts unchecked. */
  function Wrapped(context: string, inner: ErrorState): (r: ErrorState)
    ensures r.code == inner.code && !r.used
    ensures inner.code == Success ==> r.msg == ""
    ensures inner.code != Success ==>
      |r.msg| == |context| + |Separator| + |inner.msg| &&
      r.msg[..|context|] == context &&
      r.msg[|context|..|context| + |Separator|] == Separator &&
      r.msg[|context| + |Separator|..] == inner.msg
  {
    if inner.code == Success then ErrorState(Success, "", false)
    else ErrorState(inner.code, context + Separator + inner.msg, false)
  }

  /** The contexts of a call chain, outermost first, each followed by the separator. */
  function Breadcrumb(contexts: seq<string>): string
    decreases |contexts|
  {
    if contexts == [] then "" else contexts[0] + Separator + Breadcrumb(contexts[1..])
  }

  /** What a chain of wrappers makes of `inner`: `contexts[0]` is the
      outermost wrapper, the last context the one nearest to the failure. */
  function Trail(contexts: seq<string>, inner: ErrorState): ErrorState
    decreases |contexts|
  {
    if contexts == [] then inner else Wrapped(contexts[0], Trail(contexts[1..], inner))
  }

  /** However deep the chain, the original code comes out unchanged. */
  lemma {:induction false} TrailKeepsCode(contexts: seq<string>, inner: ErrorState)
    ensures Trail(contexts, inner).code == inner.code
    decreases |contexts|
  {
    if contexts != [] {
      TrailKeepsCode(contexts[1..], inner);
    }
  }

  /** A failure comes out with every context of the chain, outermost first,
      in front of its original message. */
  lemma {:induction false} TrailMessage(contexts: seq<string>, inner: ErrorState)
    requires inner.code != Success
    ensures Trail(contexts, inner).msg == Breadcrumb(contexts) + inner.msg
    decreases |contexts|
  {
    if contexts != [] {
      TrailKeepsCode(contexts[1..], inner);
      TrailMessage(contexts[1..], inner);
      assert contexts[0] + Separator + (Breadcrumb(contexts[1..]) + inner.msg)
          == (contexts[0] + Separator + Breadcrumb(contexts[1..])) + inner.msg;
    }
  }

  /** A success comes out of any non-empty chain as a plain success, its
      message dropped. */
  lemma {:induction false} TrailOfSuccess(contexts: seq<string>, inner: ErrorState)
    requires inner.code == Success && contexts != []
    ensures Trail(contexts, inner).code == Success && Trail(contexts, inner).msg == ""
  {
    TrailKeepsCode(contexts[1..], inner);
  }

  /** The C++ object: a fixed context and the error it holds. */
  class SensorErrorWrapper {
    const context: string
    var error: SensorError

    /** `SensorErrorWrapper(context)`: holds a default-constructed success. */
    constructor (t: CodeTable, c: string, log: DefectLog)
      modifies log
      ensures context == c && fresh(error)
      ensures error.table == t && error.State() == ErrorState(Success, "", false)
      ensures log.reports == old(log.reports) + ConstructionDefects(t, Success)
    {
      context := c;
      error := new SensorError.Default(t, log);
    }

    /** `operator=(inner)`: the held error object takes over the code and
        message of `Wrapped(context, inner)` by assignment from a
        temporary, and so keeps its own flag; `inner` ends up checked. */
    method Assign(inner: SensorError, log: DefectLog)
      requires inner.table == error.table
      modifies error, inner, log
      ensures error == old(error)
      ensures error.code == Wrapped(context, old(inner.State())).code
      ensures error.msg == Wrapped(context, old(inner.State())).msg
      ensures error.used == (old(error.used) || inner == error)
      ensures inner.used
      ensures inner != error ==> inner.code == old(inner.code) && inner.msg == old(inner.msg)
      ensures log.reports == old(log.reports) + ConstructionDefects(error.table, old(inner.code))
    {
      var failed := inner.AsBool();
      if !failed {
        var temp := new SensorError.Default(error.table, log);
        error.AssignFrom(temp);
        var reported := temp.Destroy(log);
        return;
      }
      var innerMsg := inner.Msg();
      var m := context + Separator + innerMsg;
      var c := inner.Code();
      var temp := new SensorError(inner.table, c, m, log);
      error.AssignFrom(temp);
      var reported := temp.Destroy(log);
    }

    /** `operator bool`: whether the held error is a failure; checks it. */
    method AsBool() returns (failed: bool)
      modifies error
      ensures failed <==> error.code != Success
      ensures error.State() == Step(old(error.State()), Checked)
    {
      failed := error.AsBool();
    }

    /** `operator const SensorError &`: the held error itself, not checked. */
    method AsError() returns (e: SensorError)
      ensures e == error
    {
      e := error;
    }

    /** The destructor: destroying the held error. */
    method Destroy(log: DefectLog) returns (defect: bool)
      modifies log
      ensures defect <==> Reports(error.State())
      ensures log.reports == old(log.reports) + (if defect then [ErrorNotChecked(error.code)] else [])
    {
      defect := error.Destroy(log);
    }
  }
}
