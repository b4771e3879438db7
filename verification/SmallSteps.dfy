/**
 * A call with all the calls nested in its payments, flattened into the order in
 * which the contracts' code really ran. What reverted has left no step. Every
 * property of histories is then a property of single steps.
 */
module SmallSteps {
  import opened Primitives
  import opened Ledger

  datatype Step =
    | Do(call: Call)  // the part of a call before the paid party's code
    | Emit            // the event of the innermost payment still open

  /** A state inside a transaction: events owed by the open payments, innermost last. */
  datatype Mid = Mid(w: World, open: seq<Event>)

  function Apply(m: Mid, now: U64, s: Step): Option<Mid> {
    match s
    case Do(c) =>
      (match Begin(m.w, now, c)
       case Err(_) => None
       case Ok(w1) => Some(Mid(w1, m.open + Finale(c))))
    case Emit =>
      if m.open == [] then None
      else Some(Mid(m.w.(log := m.w.log + [m.open[|m.open| - 1]]), m.open[..|m.open| - 1]))
  }

  function ApplyAll(m: Mid, now: U64, ss: seq<Step>): Option<Mid>
    decreases |ss|
  {
    if ss == [] then Some(m)
    else
      match Apply(m, now, ss[0])
      case None => None
      case Some(m1) => ApplyAll(m1, now, ss[1..])
  }

  lemma {:induction false} ApplyAllAppend(m: Mid, now: U64, a: seq<Step>, b: seq<Step>)
    requires ApplyAll(m, now, a).Some?
    ensures ApplyAll(m, now, a + b) == ApplyAll(ApplyAll(m, now, a).value, now, b)
    decreases |a|
  {
    if a == [] {
      assert a + b == b;
    } else {
      assert (a + b)[1..] == a[1..] + b;
      ApplyAllAppend(Apply(m, now, a[0]).value, now, a[1..], b);
    }
  }

  /** The steps of a call that succeeds. */
  function Steps(w: World, now: U64, c: Call): seq<Step>
    requires Exec(w, now, c).Ok?
    decreases c
  {
    var w1 := Begin(w, now, c).value;
    if !c.Pays() then [Do(c)]
    else
      BeginKnows(w, now, c);
      [Do(c)]
      + (if RunsCode(w1, Paid(w1, c)) then StepsOfAll(w1, now, c.reply.calls) else [])
      + (if Finale(c) == [] then [] else [Emit])
  }

  function StepsOfAll(w: World, now: U64, calls: seq<Call>): seq<Step>
    decreases calls
  {
    if calls == [] then []
    else
      match Exec(w, now, calls[0])
      case Err(_) => StepsOfAll(w, now, calls[1..])
      case Ok(w1) => Steps(w, now, calls[0]) + StepsOfAll(w1, now, calls[1..])
  }

  /** Running the flattened steps is running the call. */
  lemma {:induction false} StepsRun(w: World, now: U64, c: Call, open: seq<Event>)
    requires Exec(w, now, c).Ok?
    ensures ApplyAll(Mid(w, open), now, Steps(w, now, c)) == Some(Mid(Exec(w, now, c).value, open))
    decreases c
  {
    var w1 := Begin(w, now, c).value;
    var m1 := Mid(w1, open + Finale(c));
    assert Apply(Mid(w, open), now, Do(c)) == Some(m1);
    if !c.Pays() {
      assert m1 == Mid(w1, open);
      assert ApplyAll(Mid(w, open), now, [Do(c)]) == ApplyAll(m1, now, [Do(c)][1..]);
    } else {
      BeginKnows(w, now, c);
      var inner := if RunsCode(w1, Paid(w1, c)) then StepsOfAll(w1, now, c.reply.calls) else [];
      var w2 := Answer(w1, now, Paid(w1, c), c.reply).value;
      if RunsCode(w1, Paid(w1, c)) {
        StepsOfAllRun(w1, now, c.reply.calls, open + Finale(c));
      }
      assert ApplyAll(m1, now, inner) == Some(Mid(w2, open + Finale(c)));
      var last := if Finale(c) == [] then [] else [Emit];
      LastStep(w2, now, open, Finale(c));
      ApplyAllAppend(m1, now, inner, last);
      assert Steps(w, now, c) == [Do(c)] + (inner + last);
      assert ([Do(c)] + (inner + last))[1..] == inner + last;
    }
  }

  lemma LastStep(w: World, now: U64, open: seq<Event>, finale: seq<Event>)
    requires |finale| <= 1
    ensures var last := if finale == [] then [] else [Emit];
      ApplyAll(Mid(w, open + finale), now, last) == Some(Mid(w.(log := w.log + finale), open))
  {
    var m := Mid(w, open + finale);
    if finale == [] {
      assert open + finale == open && w.log + finale == w.log;
    } else {
      assert m.open[|m.open| - 1] == finale[0] && m.open[..|m.open| - 1] == open;
      assert finale == [finale[0]];
      var m1 := Apply(m, now, Emit).value;
      assert ApplyAll(m1, now, [Emit][1..]) == Some(m1);
    }
  }

  lemma {:induction false} StepsOfAllRun(w: World, now: U64, calls: seq<Call>, open: seq<Event>)
    ensures ApplyAll(Mid(w, open), now, StepsOfAll(w, now, calls)) == Some(Mid(ExecAll(w, now, calls), open))
    decreases calls
  {
    if calls != [] {
      match Exec(w, now, calls[0])
      case Err(_) => StepsOfAllRun(w, now, calls[1..], open);
      case Ok(w1) =>
        StepsRun(w, now, calls[0], open);
        StepsOfAllRun(w1, now, calls[1..], open);
        ApplyAllAppend(Mid(w, open), now, Steps(w, now, calls[0]), StepsOfAll(w1, now, calls[1..]));
    }
  }

  // -------- which calls a step may come from --------

  /** `p` holds of the call and of every call nested in its replies. */
  ghost predicate Throughout(c: Call, p: Call -> bool)
    decreases c
  {
    p(c) && (c.Pays() ==> ThroughoutAll(c.reply.calls, p))
  }

  ghost predicate ThroughoutAll(calls: seq<Call>, p: Call -> bool)
    decreases calls
  {
    calls != [] ==> Throughout(calls[0], p) && ThroughoutAll(calls[1..], p)
  }

  ghost predicate StepsFrom(ss: seq<Step>, p: Call -> bool) {
    forall i :: 0 <= i < |ss| && ss[i].Do? ==> p(ss[i].call)
  }

  /** Every step of a call comes from a call of its tree. */
  lemma {:induction false} StepsComeFromTree(w: World, now: U64, c: Call, p: Call -> bool)
    requires Exec(w, now, c).Ok? && Throughout(c, p)
    ensures StepsFrom(Steps(w, now, c), p)
    decreases c
  {
    var w1 := Begin(w, now, c).value;
    if c.Pays() {
      BeginKnows(w, now, c);
      if RunsCode(w1, Paid(w1, c)) {
        StepsOfAllComeFromTree(w1, now, c.reply.calls, p);
      }
    }
  }

  lemma {:induction false} StepsOfAllComeFromTree(w: World, now: U64, calls: seq<Call>, p: Call -> bool)
    requires ThroughoutAll(calls, p)
    ensures StepsFrom(StepsOfAll(w, now, calls), p)
    decreases calls
  {
    if calls != [] {
      match Exec(w, now, calls[0])
      case Err(_) => StepsOfAllComeFromTree(w, now, calls[1..], p);
      case Ok(w1) =>
        StepsComeFromTree(w, now, calls[0], p);
        StepsOfAllComeFromTree(w1, now, calls[1..], p);
    }
  }
}
