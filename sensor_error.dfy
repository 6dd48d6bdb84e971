/** `cepton_sdk::SensorError`: an error code and message that must be looked at
    before it is dropped.

    The hidden `Used` flag of the C++ class is the field `used`.  Reading the
    value (or ignoring it explicitly, or copying or moving out of it) sets the
    flag; destroying a failure whose flag is still clear is a defect.  The
    header reports defects through `CEPTON_RUNTIME_ASSERT`, which prints to
    standard error and may terminate the process; here a report is an entry
    appended to a `DefectLog`.
 */
module SensorErrors {
  import opened ErrorCodes

  /** The two runtime asserts of the error type. */
  datatype Defect =
    | InvalidErrorCode(code: SensorErrorCode)  // "Invalid error code!": at construction, for a code without a name
    | ErrorNotChecked(code: SensorErrorCode)   // "Error not checked!": at destruction, for an unchecked failure

  /** Where runtime asserts go: the process's standard error stream. */
  class DefectLog {
    var reports: seq<Defect>

    constructor ()
      ensures reports == []
    {
      reports := [];
    }

    method Report(d: Defect)
      modifies this
      ensures reports == old(reports) + [d]
    {
      reports := reports + [d];
    }
  }

  /** The value of a `SensorError`: code, message and the "used" flag. */
  datatype ErrorState = ErrorState(code: SensorErrorCode, msg: string, used: bool)

  /** Destroying a value in state `s` reports "Error not checked!". */
  predicate Reports(s: ErrorState)
  {
    s.code != Success && !s.used
  }

  /** What constructing an error with code `c` reports: the code must have a name. */
  function ConstructionDefects(t: CodeTable, c: SensorErrorCode): seq<Defect>
  {
    if t.name(c) == "" then [InvalidErrorCode(c)] else []
  }

  /** `create_message`: the text `what()` returns.  A success has no text; a
      failure is named by its code, followed by the message when there is one. */
  function CreateMessage(t: CodeTable, c: SensorErrorCode, msg: string): (r: string)
    ensures c == Success ==> r == ""
    ensures c != Success ==> t.name(c) <= r
    ensures c != Success ==> (msg == "" <==> r == t.name(c))
    ensures c != Success && msg != "" ==> r[|t.name(c)|..] == ": " + msg
  {
    if c == Success then ""
    else if msg == "" then t.name(c)
    else t.name(c) + ": " + msg
  }

  /** The text is empty exactly for a success, provided every failure has a
      name (the invariant construction checks). */
  lemma CreateMessageEmpty(t: CodeTable, c: SensorErrorCode, msg: string)
    requires c != Success ==> t.name(c) != ""
    ensures CreateMessage(t, c, msg) == "" <==> c == Success
  {
  }

  /** For a failure the text loses nothing: two messages that produce the
      same text are the same message. */
  lemma CreateMessageInjective(t: CodeTable, c: SensorErrorCode, m1: string, m2: string)
    requires c != Success
    requires CreateMessage(t, c, m1) == CreateMessage(t, c, m2)
    ensures m1 == m2
  {
    var n := t.name(c);
    if m1 != "" && m2 != "" {
      assert ": " + m1 == CreateMessage(t, c, m1)[|n|..] == ": " + m2;
      assert m1 == (": " + m1)[2..] == (": " + m2)[2..] == m2;
    }
  }

  /** What can happen to one `SensorError` object during its life. */
  datatype Event =
    | Checked                        // ignore(), msg(), code(), name(), is_error(), is_fault() or a conversion
    | CopiedFrom                     // it is the source of a copy or move, by construction or by assignment
    | AssignedFrom(src: ErrorState)  // it is the destination of a copy or move assignment from another object

  /** Every event except being assigned to discharges the obligation. */
  predicate Discharges(e: Event)
  {
    !e.AssignedFrom?
  }

  /** The effect of one event.  Assignment takes the source's code and message
      and leaves the destination's own flag as it was. */
  function Step(s: ErrorState, e: Event): ErrorState
  {
    match e
    case Checked => s.(used := true)
    case CopiedFrom => s.(used := true)
    case AssignedFrom(src) => s.(code := src.code, msg := src.msg)
  }

  /** The effect of a sequence of events, first event first. */
  function Run(s: ErrorState, evs: seq<Event>): ErrorState
    decreases |evs|
  {
    if evs == [] then s else Run(Step(s, evs[0]), evs[1..])
  }

  /** Running two sequences one after the other is running their concatenation. */
  lemma {:induction false} RunAppend(s: ErrorState, a: seq<Event>, b: seq<Event>)
    ensures Run(s, a + b) == Run(Run(s, a), b)
    decreases |a|
  {
    if a == [] {
      assert a + b == b;
    } else {
      assert (a + b)[1..] == a[1..] + b;
      RunAppend(Step(s, a[0]), a[1..], b);
    }
  }

  /** The flag is set at the end exactly when it was set at the start or some
      event discharged the obligation: once set, it stays set. */
  lemma {:induction false} RunUsed(s: ErrorState, evs: seq<Event>)
    ensures Run(s, evs).used <==> s.used || exists i :: 0 <= i < |evs| && Discharges(evs[i])
    decreases |evs|
  {
    if evs != [] {
      RunUsed(Step(s, evs[0]), evs[1..]);
      if exists i :: 0 <= i < |evs[1..]| && Discharges(evs[1..][i]) {
        var i :| 0 <= i < |evs[1..]| && Discharges(evs[1..][i]);
        assert Discharges(evs[i + 1]);
      }
      if exists i :: 0 <= i < |evs| && Discharges(evs[i]) {
        var i :| 0 <= i < |evs| && Discharges(evs[i]);
        if i > 0 {
          assert Discharges(evs[1..][i - 1]);
        }
      }
    }
  }

  /** Checking and copying never change the code or the message. */
  lemma {:induction false} RunKeepsContents(s: ErrorState, evs: seq<Event>)
    requires forall i :: 0 <= i < |evs| ==> Discharges(evs[i])
    ensures Run(s, evs).code == s.code && Run(s, evs).msg == s.msg
    decreases |evs|
  {
    if evs != [] {
      assert forall i :: 0 <= i < |evs[1..]| ==> Discharges(evs[1..][i]) by {
        forall i | 0 <= i < |evs[1..]| ensures Discharges(evs[1..][i]) {
          assert evs[1..][i] == evs[i + 1];
        }
      }
      RunKeepsContents(Step(s, evs[0]), evs[1..]);
    }
  }

  /** The last assignment decides the code and the message; what follows it,
      if it only checks or copies, keeps them. */
  lemma LastAssignmentWins(s: ErrorState, before: seq<Event>, src: ErrorState, after: seq<Event>)
    requires forall i :: 0 <= i < |after| ==> Discharges(after[i])
    ensures Run(s, before + [AssignedFrom(src)] + after).code == src.code
    ensures Run(s, before + [AssignedFrom(src)] + after).msg == src.msg
  {
    var mid := Run(s, before + [AssignedFrom(src)]);
    RunAppend(s, before + [AssignedFrom(src)], after);
    RunAppend(s, before, [AssignedFrom(src)]);
    assert mid == Step(Run(s, before), AssignedFrom(src));
    RunKeepsContents(mid, after);
  }

  /** Destruction at the end of a life reports exactly when the final value is
      a failure, the flag was clear at birth and no event discharged it. */
  lemma ReportsAfterRun(s: ErrorState, evs: seq<Event>)
    ensures Reports(Run(s, evs)) <==>
      Run(s, evs).code != Success && !s.used && forall i :: 0 <= i < |evs| ==> !Discharges(evs[i])
  {
    RunUsed(s, evs);
  }

  /** An object that was checked, ignored or copied from is safe to destroy,
      whatever its code. */
  lemma DischargedNeverReports(s: ErrorState, evs: seq<Event>, i: nat)
    requires i < |evs| && Discharges(evs[i])
    ensures !Reports(Run(s, evs))
  {
    RunUsed(s, evs);
  }

  /** The C++ object.  `table` is the SDK's C library, shared by all errors. */
  class SensorError {
    const table: CodeTable
    var code: SensorErrorCode
    var msg: string
    var used: bool

    ghost function State(): ErrorState
      reads this
    {
      ErrorState(code, msg, used)
    }

    /** `what()`, inherited from `std::runtime_error`. */
    function What(): string
      reads this
    {
      CreateMessage(table, code, msg)
    }

    /** `SensorError(code, msg)`: a fresh, unchecked value; a code without a
        name is reported as "Invalid error code!". */
    constructor (t: CodeTable, c: SensorErrorCode, m: string, log: DefectLog)
      modifies log
      ensures table == t && State() == ErrorState(c, m, false)
      ensures What() == CreateMessage(t, c, m)
      ensures log.reports == old(log.reports) + ConstructionDefects(t, c)
    {
      table, code, msg, used := t, c, m, false;
      new;
      if t.name(c) == "" {
        log.Report(InvalidErrorCode(c));
      }
    }

    /** `SensorError(code)`: the same with an empty message. */
    constructor FromCode(t: CodeTable, c: SensorErrorCode, log: DefectLog)
      modifies log
      ensures table == t && State() == ErrorState(c, "", false)
      ensures What() == CreateMessage(t, c, "")
      ensures log.reports == old(log.reports) + ConstructionDefects(t, c)
    {
      table, code, msg, used := t, c, "", false;
      new;
      if t.name(c) == "" {
        log.Report(InvalidErrorCode(c));
      }
    }

    /** `SensorError()`: a success with an empty message. */
    constructor Default(t: CodeTable, log: DefectLog)
      modifies log
      ensures table == t && State() == ErrorState(Success, "", false)
      ensures What() == ""
      ensures log.reports == old(log.reports) + ConstructionDefects(t, Success)
    {
      table, code, msg, used := t, Success, "", false;
      new;
      if t.name(Success) == "" {
        log.Report(InvalidErrorCode(Success));
      }
    }

    /** Copy construction, which `std::move` also ends in: the class declares a
        destructor, so it has no implicit move operations.  The new value
        starts unchecked and the source counts as checked. */
    constructor CopyOf(other: SensorError)
      modifies other
      ensures table == other.table && State() == ErrorState(old(other.code), old(other.msg), false)
      ensures What() == old(other.What())
      ensures other.State() == Step(old(other.State()), CopiedFrom)
    {
      table, code, msg, used := other.table, other.code, other.msg, false;
      new;
      other.used := true;
    }

    /** Copy assignment `this = other`, also used for a move or an assignment
        from a temporary: code, message and `what()` text are taken over, the
        destination keeps its own flag, and the source counts as checked --
        so assigning a value to itself marks it checked. */
    method AssignFrom(other: SensorError)
      requires other.table == table
      modifies this, other
      ensures other != this ==> State() == Step(old(State()), AssignedFrom(old(other.State())))
      ensures other != this ==> other.State() == Step(old(other.State()), CopiedFrom)
      ensures other == this ==> State() == Step(old(State()), CopiedFrom)
      ensures What() == old(other.What())
    {
      code, msg := other.code, other.msg;
      other.used := true;
    }

    /** `ignore()`: marks the error as checked without reading it. */
    method Ignore()
      modifies this`used
      ensures State() == Step(old(State()), Checked)
    {
      used := true;
    }

    /** `msg()`. */
    method Msg() returns (m: string)
      modifies this`used
      ensures m == msg
      ensures State() == Step(old(State()), Checked)
    {
      used := true;
      m := msg;
    }

    /** `code()`, and the conversion `operator SensorErrorCode`, which calls it. */
    method Code() returns (c: SensorErrorCode)
      modifies this`used
      ensures c == code
      ensures State() == Step(old(State()), Checked)
    {
      used := true;
      c := code;
    }

    /** `operator bool`: true exactly for a failure. */
    method AsBool() returns (failed: bool)
      modifies this`used
      ensures failed <==> code != Success
      ensures State() == Step(old(State()), Checked)
    {
      var c := Code();
      failed := c != Success;
    }

    /** `name()`: the code's name from the C library. */
    method Name() returns (n: string)
      modifies this`used
      ensures n == table.name(code)
      ensures State() == Step(old(State()), Checked)
    {
      var c := Code();
      n := table.name(c);
    }

    /** `is_error()`: whether the code is a `CEPTON_ERROR_*`. */
    method IsError() returns (b: bool)
      modifies this`used
      ensures b == table.isError(code)
      ensures State() == Step(old(State()), Checked)
    {
      var c := Code();
      b := table.isError(c);
    }

    /** `is_fault()`: whether the code is a `CEPTON_FAULT_*`. */
    method IsFault() returns (b: bool)
      modifies this`used
      ensures b == table.isFault(code)
      ensures State() == Step(old(State()), Checked)
    {
      var c := Code();
      b := table.isFault(c);
    }

    /** The destructor: an unchecked failure reports "Error not checked!";
        a success never reports, whatever its flag. */
    method Destroy(log: DefectLog) returns (defect: bool)
      modifies log
      ensures defect <==> code != Success && !used
      ensures code == Success ==> !defect  // so a default-constructed error is always safe to drop
      ensures log.reports == old(log.reports) + (if defect then [ErrorNotChecked(code)] else [])
    {
      defect := Reports(ErrorState(code, msg, used));
      if defect {
        log.Report(ErrorNotChecked(code));
      }
    }
  }

  /** `get_error()`: wraps the error the C library last recorded, which the
      caller passes in as `lastCode` and `lastMsg`. */
  method GetError(t: CodeTable, lastCode: SensorErrorCode, lastMsg: string, log: DefectLog)
    returns (e: SensorError)
    modifies log
    ensures fresh(e) && e.table == t && e.State() == ErrorState(lastCode, lastMsg, false)
    ensures log.reports == old(log.reports) + ConstructionDefects(t, lastCode)
  {
    e := new SensorError(t, lastCode, lastMsg, log);
  }
}
