/** Reading query results from an attached worker through two queues: protocol messages and tuples.
    Worker sends and reader polls interleave freely; every queue operation is one step. The command
    is a single statement, so one row description precedes all its tuples. */
module AttachedWorker {

  import opened Basics

  type Oid = nat
  type TupleData = nat
  type Desc = seq<Oid>

  datatype Message = Notice | ErrorMessage | Complete | RowDescription(types: Desc) | Other

  /** What the worker does, in order. */
  datatype Event = SendMessage(m: Message) | SendTuple(t: TupleData) | Detach

  datatype Phase =
    | Draining | Polling | FinalDrain      // the reading loop
    | Returned                             // normal return
    | WorkerError | TypeMismatch | MissingDesc

  datatype State = State(
    script: seq<Event>,                    // what the worker still does
    messages: seq<Message>,
    tuples: seq<TupleData>,
    detached: bool,                        // the worker left the tuple queue
    phase: Phase,
    workerDesc: Option<Desc>,              // set by the drain of this round
    tupleDesc: Option<Desc>,
    store: seq<TupleData>,
    // history
    sent: seq<TupleData>,
    received: Option<Desc>)

  function Init(script: seq<Event>, expected: Option<Desc>): State {
    State(script, [], [], false, Draining, None, expected, [], [], None)
  }

  // ----- the worker -----

  function WorkerStep(s: State): State
    requires s.script != []
  {
    var rest := s.script[1..];
    match s.script[0]
    case SendMessage(m) => s.(script := rest, messages := s.messages + [m])
    case SendTuple(t) => s.(script := rest, tuples := s.tuples + [t], sent := s.sent + [t])
    case Detach => s.(script := rest, detached := true)
  }

  // ----- the reader -----

  predicate Reading(s: State) {
    s.phase.Draining? || s.phase.Polling? || s.phase.FinalDrain?
  }

  /** A drained row description is adopted if none was expected, and must match otherwise. */
  function EndDrain(s: State): State {
    match s.workerDesc
    case None => s.(phase := Polling)
    case Some(d) =>
      if s.tupleDesc.None? then s.(phase := Polling, workerDesc := None, tupleDesc := Some(d))
      else if s.tupleDesc.value == d then s.(phase := Polling, workerDesc := None)
      else s.(phase := TypeMismatch)
  }

  function DrainStep(s: State): State {
    if s.messages == [] then EndDrain(s)
    else
      var s' := s.(messages := s.messages[1..]);
      match s.messages[0]
      case ErrorMessage => s'.(phase := WorkerError)
      case Complete => EndDrain(s')
      case RowDescription(d) =>
        s'.(workerDesc := if s.workerDesc.None? then Some(d) else s.workerDesc,
            received := if s.received.None? then Some(d) else s.received)
      case _ => s'
  }

  function PollStep(s: State): State {
    if s.tuples == [] then s.(phase := if s.detached then FinalDrain else Draining)
    else if s.tupleDesc.None? then s.(phase := MissingDesc)
    else s.(phase := Draining, tuples := s.tuples[1..], store := s.store + [s.tuples[0]])
  }

  function FinalStep(s: State): State {
    if s.messages == [] then s.(phase := Returned)
    else
      var s' := s.(messages := s.messages[1..]);
      match s.messages[0]
      case ErrorMessage => s'.(phase := WorkerError)
      case Complete => s'.(phase := Returned)
      case _ => s'
  }

  function ReaderStep(s: State): State
    requires Reading(s)
  {
    match s.phase
    case Draining => DrainStep(s)
    case Polling => PollStep(s)
    case FinalDrain => FinalStep(s)
  }

  datatype Step = Worker | Reader

  predicate Enabled(s: State, a: Step) {
    match a
    case Worker => s.script != []
    case Reader => Reading(s)
  }

  function Apply(s: State, a: Step): State
    requires Enabled(s, a)
  {
    match a
    case Worker => WorkerStep(s)
    case Reader => ReaderStep(s)
  }

  datatype Outcome = Stuck | At(state: State)

  function Run(s: State, steps: seq<Step>): Outcome
    decreases |steps|
  {
    if steps == [] then At(s)
    else if Enabled(s, steps[0]) then Run(Apply(s, steps[0]), steps[1..])
    else Stuck
  }

  // ----- single-statement scripts -----

  function MessagesOf(script: seq<Event>): seq<Message> {
    if script == [] then []
    else (if script[0].SendMessage? then [script[0].m] else []) + MessagesOf(script[1..])
  }

  function TuplesOf(script: seq<Event>): seq<TupleData> {
    if script == [] then []
    else (if script[0].SendTuple? then [script[0].t] else []) + TuplesOf(script[1..])
  }

  predicate NoDesc(ms: seq<Message>) {
    forall i :: 0 <= i < |ms| ==> !ms[i].RowDescription?
  }

  /** At most one row description, and none after the statement completed. */
  predicate OneDesc(ms: seq<Message>) {
    ms == [] || (if ms[0].RowDescription? || ms[0].Complete? then NoDesc(ms[1..]) else OneDesc(ms[1..]))
  }

  /** Tuples follow the row description, and nothing is sent to the tuple queue after detaching. */
  predicate TuplesInPlace(script: seq<Event>, described: bool, detached: bool) {
    script == [] ||
    match script[0]
    case SendMessage(m) => TuplesInPlace(script[1..], described || m.RowDescription?, detached)
    case SendTuple(_) => described && !detached && TuplesInPlace(script[1..], described, detached)
    case Detach => TuplesInPlace(script[1..], described, true)
  }

  predicate SingleStatement(script: seq<Event>) {
    OneDesc(MessagesOf(script)) && TuplesInPlace(script, false, false)
  }

  // ----- the invariant -----

  predicate Described(s: State) {
    s.received.Some? || !NoDesc(s.messages)
  }

  /** Protocol messages not yet read: one description at most, none once it was received. */
  predicate StreamInv(s: State) {
    var ms := s.messages + MessagesOf(s.script);
    OneDesc(ms) && (s.received.Some? ==> NoDesc(ms))
  }

  predicate TupleInv(s: State, all: seq<TupleData>) {
    && TuplesInPlace(s.script, Described(s), s.detached)
    && (s.sent != [] ==> Described(s))
    && s.store + s.tuples == s.sent
    && s.sent + TuplesOf(s.script) == all
  }

  predicate DescInv(s: State, expected: Option<Desc>) {
    && (s.workerDesc.Some? ==> s.workerDesc == s.received)
    && (expected.Some? ==> s.tupleDesc == expected)
    && (expected.Some? && s.received.Some? && s.phase != TypeMismatch ==>
      s.received == expected || s.workerDesc == s.received)
    && (s.phase.Polling? ==> s.workerDesc.None? && (s.store != [] ==> s.received.Some?))
    && (s.phase.MissingDesc? ==> expected.None? && s.tuples != [])
  }

  predicate Inv(s: State, expected: Option<Desc>, all: seq<TupleData>) {
    StreamInv(s) && TupleInv(s, all) && DescInv(s, expected)
  }

  lemma {:induction false} NoDescIsOne(ms: seq<Message>)
    requires NoDesc(ms)
    ensures OneDesc(ms)
  {
    if ms != [] {
      assert NoDesc(ms[1..]);
      NoDescIsOne(ms[1..]);
    }
  }

  lemma OneDescTail(ms: seq<Message>)
    requires OneDesc(ms) && ms != []
    ensures OneDesc(ms[1..])
    ensures ms[0].RowDescription? || ms[0].Complete? ==> NoDesc(ms[1..])
  {
    if ms[0].RowDescription? || ms[0].Complete? {
      NoDescIsOne(ms[1..]);
    }
  }

  lemma SendMessageKeeps(s: State, s': State, all: seq<TupleData>)
    requires StreamInv(s) && TupleInv(s, all) && s.script != [] && s.script[0].SendMessage?
    requires s' == s.(script := s.script[1..], messages := s.messages + [s.script[0].m])
    ensures StreamInv(s') && TupleInv(s', all)
  {
    var m := s.script[0].m;
    assert s'.messages + MessagesOf(s'.script) == s.messages + MessagesOf(s.script);
    assert TuplesOf(s'.script) == TuplesOf(s.script);
    NoDescEnd(s.messages, m);
  }

  lemma NoDescEnd(ms: seq<Message>, m: Message)
    ensures NoDesc(ms + [m]) <==> NoDesc(ms) && !m.RowDescription?
  {
    assert (ms + [m])[|ms|] == m;
    assert forall i :: 0 <= i < |ms| ==> (ms + [m])[i] == ms[i];
  }

  lemma SendTupleKeeps(s: State, s': State, all: seq<TupleData>)
    requires StreamInv(s) && TupleInv(s, all) && s.script != [] && s.script[0].SendTuple?
    requires s' == s.(script := s.script[1..], tuples := s.tuples + [s.script[0].t], sent := s.sent + [s.script[0].t])
    ensures StreamInv(s') && TupleInv(s', all)
  {
    var t := s.script[0].t;
    assert MessagesOf(s'.script) == MessagesOf(s.script);
    Concat(s.sent, [t], TuplesOf(s'.script));
    Concat(s.store, s.tuples, [t]);
  }

  lemma Concat(a: seq<TupleData>, b: seq<TupleData>, c: seq<TupleData>)
    ensures a + b + c == a + (b + c)
  {
  }

  lemma DetachKeeps(s: State, s': State, all: seq<TupleData>)
    requires StreamInv(s) && TupleInv(s, all) && s.script != [] && s.script[0].Detach?
    requires s' == s.(script := s.script[1..], detached := true)
    ensures StreamInv(s') && TupleInv(s', all)
  {
    assert MessagesOf(s'.script) == MessagesOf(s.script) && TuplesOf(s'.script) == TuplesOf(s.script);
  }

  lemma WorkerKeepsInv(s: State, expected: Option<Desc>, all: seq<TupleData>)
    requires Inv(s, expected, all) && s.script != []
    ensures Inv(WorkerStep(s), expected, all)
  {
    match s.script[0]
    case SendMessage(_) => SendMessageKeeps(s, WorkerStep(s), all);
    case SendTuple(_) => SendTupleKeeps(s, WorkerStep(s), all);
    case Detach => DetachKeeps(s, WorkerStep(s), all);
  }

  /** Popping a message that is not a row description hides no description. */
  lemma PopMessage(s: State, s': State)
    requires StreamInv(s) && s.messages != []
    requires s'.script == s.script && s'.messages == s.messages[1..]
    requires s'.received ==
      if s.messages[0].RowDescription? && s.received.None? then Some(s.messages[0].types) else s.received
    ensures StreamInv(s')
    ensures Described(s') <==> Described(s)
    ensures s.messages[0].Complete? && Described(s) ==> s.received.Some?
  {
    var ms, ms' := s.messages + MessagesOf(s.script), s'.messages + MessagesOf(s'.script);
    assert ms' == ms[1..] && ms[0] == s.messages[0];
    OneDescTail(ms);
    assert NoDesc(ms) ==> NoDesc(ms');
    assert s.messages == [s.messages[0]] + s'.messages;
    assert NoDesc(s.messages) <==> NoDesc(s'.messages) && !s.messages[0].RowDescription? by {
      assert forall i :: 0 <= i < |s'.messages| ==> s'.messages[i] == s.messages[i + 1];
    }
    if NoDesc(ms') {
      assert forall i :: 0 <= i < |s'.messages| ==> s'.messages[i] == ms'[i];
    }
  }

  lemma QueuesUntouched(s: State, s': State, all: seq<TupleData>)
    requires StreamInv(s) && TupleInv(s, all)
    requires s' == s.(phase := s'.phase, workerDesc := s'.workerDesc, tupleDesc := s'.tupleDesc)
    ensures StreamInv(s') && TupleInv(s', all)
  {
  }

  lemma EndDrainDesc(s: State, expected: Option<Desc>)
    requires DescInv(s, expected) && s.phase.Draining? && (s.store != [] ==> s.received.Some?)
    ensures DescInv(EndDrain(s), expected)
  {
  }

  lemma EndDrainKeepsInv(s: State, expected: Option<Desc>, all: seq<TupleData>)
    requires Inv(s, expected, all) && s.phase.Draining? && (s.store != [] ==> s.received.Some?)
    ensures Inv(EndDrain(s), expected, all)
  {
    EndDrainEffect(s);
    QueuesUntouched(s, EndDrain(s), all);
    EndDrainDesc(s, expected);
  }

  lemma EndDrainEffect(s: State)
    ensures var s' := EndDrain(s);
      s' == s.(phase := s'.phase, workerDesc := s'.workerDesc, tupleDesc := s'.tupleDesc)
  {
  }

  lemma DrainKeepsInv(s: State, expected: Option<Desc>, all: seq<TupleData>)
    requires Inv(s, expected, all) && s.phase.Draining?
    ensures Inv(DrainStep(s), expected, all)
  {
    if s.messages == [] {
      EndDrainKeepsInv(s, expected, all);
    } else if s.messages[0].Complete? {
      var popped := s.(messages := s.messages[1..]);
      PopMessage(s, popped);
      EndDrainKeepsInv(popped, expected, all);
    } else {
      ReadMessageKeepsInv(s, expected, all);
    }
  }

  lemma ReadMessageKeepsInv(s: State, expected: Option<Desc>, all: seq<TupleData>)
    requires Inv(s, expected, all) && s.phase.Draining? && s.messages != [] && !s.messages[0].Complete?
    ensures Inv(DrainStep(s), expected, all)
  {
    ReadMessageQueues(s, DrainStep(s), all);
    if s.messages[0].RowDescription? {
      FirstDesc(s);
    }
    ReadMessageDesc(s, expected);
  }

  lemma ReadMessageQueues(s: State, s': State, all: seq<TupleData>)
    requires StreamInv(s) && TupleInv(s, all) && s.messages != []
    requires s' == s.(messages := s.messages[1..], phase := s'.phase, workerDesc := s'.workerDesc,
      received := s'.received)
    requires s'.received ==
      if s.messages[0].RowDescription? && s.received.None? then Some(s.messages[0].types) else s.received
    ensures StreamInv(s') && TupleInv(s', all)
  {
    PopMessage(s, s');
    ReadMessageTuples(s, s', all);
  }

  lemma ReadMessageTuples(s: State, s': State, all: seq<TupleData>)
    requires TupleInv(s, all) && (Described(s') <==> Described(s))
    requires s'.script == s.script && s'.detached == s.detached && s'.sent == s.sent && s'.store == s.store &&
      s'.tuples == s.tuples
    ensures TupleInv(s', all)
  {
  }

  lemma ReadMessageDesc(s: State, expected: Option<Desc>)
    requires DescInv(s, expected) && s.phase.Draining? && s.messages != [] && !s.messages[0].Complete?
    requires s.messages[0].RowDescription? ==> s.received.None?
    ensures DescInv(DrainStep(s), expected)
  {
  }

  lemma FirstDesc(s: State)
    requires StreamInv(s) && s.messages != [] && s.messages[0].RowDescription?
    ensures s.received.None?
  {
    assert (s.messages + MessagesOf(s.script))[0] == s.messages[0];
  }

  lemma StoreKeepsTuples(s: State, s': State, all: seq<TupleData>)
    requires StreamInv(s) && TupleInv(s, all) && s.tuples != []
    requires s' == s.(phase := Draining, tuples := s.tuples[1..], store := s.store + [s.tuples[0]])
    ensures StreamInv(s') && TupleInv(s', all)
  {
    assert s.store + [s.tuples[0]] + s.tuples[1..] == s.store + s.tuples;
  }

  lemma PollKeepsOk(s: State, expected: Option<Desc>, all: seq<TupleData>)
    requires Inv(s, expected, all) && s.phase.Polling?
    ensures Ok(PollStep(s), expected, all)
  {
    var s' := PollStep(s);
    if s.tuples != [] && s.tupleDesc.Some? {
      StoreKeepsTuples(s, s', all);
    } else if s.tuples == [] && s.detached {
      PlacedAfterDetach(s.script, Described(s));
      assert Done(s', expected, all);
    } else {
      QueuesUntouched(s, s', all);
    }
  }

  /** The trailing drain skips row descriptions; by then they are no longer needed. */
  predicate Done(s: State, expected: Option<Desc>, all: seq<TupleData>) {
    && (s.phase.FinalDrain? || s.phase.Returned? || s.phase.WorkerError?)
    && s.store + s.tuples == s.sent && s.sent + TuplesOf(s.script) == all
    && (s.phase.WorkerError? || (s.detached && s.tuples == [] && TuplesInPlace(s.script, true, true)))
    && (expected.Some? && s.store != [] ==> s.received == expected)
  }

  predicate Ok(s: State, expected: Option<Desc>, all: seq<TupleData>) {
    (Inv(s, expected, all) && !s.phase.FinalDrain? && !s.phase.Returned?) || Done(s, expected, all)
  }

  lemma {:induction false} PlacedAfterDetach(script: seq<Event>, described: bool)
    requires TuplesInPlace(script, described, true)
    ensures TuplesInPlace(script, true, true) && TuplesOf(script) == []
  {
    if script != [] {
      match script[0]
      case SendMessage(m) => PlacedAfterDetach(script[1..], described || m.RowDescription?);
      case Detach => PlacedAfterDetach(script[1..], described);
    }
  }

  lemma ActiveKeepsOk(s: State, a: Step, expected: Option<Desc>, all: seq<TupleData>)
    requires Inv(s, expected, all) && !s.phase.FinalDrain? && !s.phase.Returned? && Enabled(s, a)
    ensures Ok(Apply(s, a), expected, all)
  {
    if a.Worker? {
      WorkerKeepsInv(s, expected, all);
      assert WorkerStep(s).phase == s.phase;
    } else if s.phase.Draining? {
      DrainKeepsInv(s, expected, all);
      DrainPhases(s);
    } else {
      PollKeepsOk(s, expected, all);
    }
  }

  lemma DrainPhases(s: State)
    requires s.phase.Draining?
    ensures !DrainStep(s).phase.FinalDrain? && !DrainStep(s).phase.Returned?
  {
  }

  lemma StepKeepsOk(s: State, a: Step, expected: Option<Desc>, all: seq<TupleData>)
    requires Ok(s, expected, all) && Enabled(s, a)
    ensures Ok(Apply(s, a), expected, all)
  {
    if Done(s, expected, all) {
      DoneStays(s, a, expected, all);
    } else {
      ActiveKeepsOk(s, a, expected, all);
    }
  }

  lemma DoneStays(s: State, a: Step, expected: Option<Desc>, all: seq<TupleData>)
    requires Done(s, expected, all) && Enabled(s, a)
    ensures Done(Apply(s, a), expected, all)
  {
    if a.Worker? {
      DoneWorker(s, expected, all);
    }
  }

  lemma DoneWorker(s: State, expected: Option<Desc>, all: seq<TupleData>)
    requires Done(s, expected, all) && s.script != []
    ensures Done(WorkerStep(s), expected, all)
  {
    if s.script[0].SendTuple? {
      var t := s.script[0].t;
      Concat(s.sent, [t], TuplesOf(s.script[1..]));
      Concat(s.store, s.tuples, [t]);
    } else {
      assert TuplesOf(s.script[1..]) == TuplesOf(s.script);
    }
  }

  lemma {:induction false} RunKeepsOk(s: State, steps: seq<Step>, expected: Option<Desc>, all: seq<TupleData>)
    requires Ok(s, expected, all)
    ensures var o := Run(s, steps); o.At? ==> Ok(o.state, expected, all)
    decreases |steps|
  {
    if steps != [] && Enabled(s, steps[0]) {
      StepKeepsOk(s, steps[0], expected, all);
      RunKeepsOk(Apply(s, steps[0]), steps[1..], expected, all);
    }
  }

  lemma InitOk(script: seq<Event>, expected: Option<Desc>)
    requires SingleStatement(script)
    ensures Ok(Init(script, expected), expected, TuplesOf(script))
  {
    assert [] + MessagesOf(script) == MessagesOf(script);
  }

  // ----- what every interleaving guarantees -----

  /** A normal return stores exactly the tuples the worker sent, in order; with an expected
      descriptor and at least one tuple, the worker's row description arrived and matched it. */
  lemma NormalReturnIsValidated(script: seq<Event>, expected: Option<Desc>, steps: seq<Step>, s: State)
    requires SingleStatement(script) && Run(Init(script, expected), steps) == At(s) && s.phase.Returned?
    ensures s.store == TuplesOf(script)
    ensures expected.Some? && s.store != [] ==> s.received == expected
  {
    InitOk(script, expected);
    RunKeepsOk(Init(script, expected), steps, expected, TuplesOf(script));
    PlacedAfterDetach(s.script, true);
    assert s.store + [] == s.store;
  }

  /** In every reachable state the stored tuples are a prefix of those sent. */
  lemma StoredInOrder(script: seq<Event>, expected: Option<Desc>, steps: seq<Step>, s: State)
    requires SingleStatement(script) && Run(Init(script, expected), steps) == At(s)
    ensures s.store <= TuplesOf(script)
  {
    InitOk(script, expected);
    RunKeepsOk(Init(script, expected), steps, expected, TuplesOf(script));
    assert s.store <= s.store + s.tuples <= s.sent + TuplesOf(s.script);
  }

  // ----- a missing descriptor -----

  function Workers(n: nat): seq<Step> {
    if n == 0 then [] else [Worker] + Workers(n - 1)
  }

  lemma {:induction false} WorkersRun(s: State, last: seq<Step>) returns (s': State)
    ensures Run(s, Workers(|s.script|) + last) == Run(s', last)
    ensures s'.phase == s.phase && s'.tupleDesc == s.tupleDesc && s'.tuples == s.tuples + TuplesOf(s.script)
    decreases |s.script|
  {
    var n := |s.script|;
    if n == 0 {
      assert Workers(0) + last == last;
      assert s.tuples + [] == s.tuples;
      return s;
    }
    var s1, steps := WorkerStep(s), Workers(n) + last;
    assert steps[0] == Worker && steps[1..] == Workers(n - 1) + last;
    s' := WorkersRun(s1, last);
    assert s1.tuples + TuplesOf(s1.script) == s.tuples + TuplesOf(s.script);
  }

  lemma RaceRun(script: seq<Event>)
    requires TuplesOf(script) != []
    ensures var o := Run(Init(script, None), [Reader] + (Workers(|script|) + [Reader]));
      o.At? && o.state.phase.MissingDesc?
  {
    var s0, last := Init(script, None), [Reader];
    var s1 := ReaderStep(s0);
    assert ([Reader] + (Workers(|script|) + last))[1..] == Workers(|script|) + last;
    var s2 := WorkersRun(s1, last);
    assert last[1..] == [];
    assert Run(s2, last) == At(ReaderStep(s2));
  }

  /** The error about a missing descriptor, although the worker always sends one, can occur exactly
      for readers without an expected descriptor: the description may still be unread when the first
      tuple is. */
  lemma MissingDescIff(script: seq<Event>, expected: Option<Desc>)
    requires SingleStatement(script)
    ensures (exists steps: seq<Step> :: var o := Run(Init(script, expected), steps);
      o.At? && o.state.phase.MissingDesc?)
      <==> expected.None? && TuplesOf(script) != []
  {
    if expected.None? && TuplesOf(script) != [] {
      RaceRun(script);
    } else {
      forall steps: seq<Step>
        ensures var o := Run(Init(script, expected), steps); o.At? ==> !o.state.phase.MissingDesc?
      {
        NeverMissing(script, expected, steps);
      }
    }
  }

  lemma NeverMissing(script: seq<Event>, expected: Option<Desc>, steps: seq<Step>)
    requires SingleStatement(script) && (expected.Some? || TuplesOf(script) == [])
    ensures var o := Run(Init(script, expected), steps); o.At? ==> !o.state.phase.MissingDesc?
  {
    InitOk(script, expected);
    RunKeepsOk(Init(script, expected), steps, expected, TuplesOf(script));
  }

  // ----- comparing descriptors -----

  /** Column count and types, compared one by one. */
  method ValidateWorkerTupleDesc(workerDesc: Desc, expectedDesc: Desc) returns (ok: bool)
    ensures ok <==> workerDesc == expectedDesc
  {
    if |workerDesc| != |expectedDesc| {
      return false;
    }
    for i := 0 to |workerDesc|
      invariant workerDesc[..i] == expectedDesc[..i]
    {
      if workerDesc[i] != expectedDesc[i] {
        return false;
      }
    }
    assert workerDesc[..|workerDesc|] == workerDesc && expectedDesc[..|workerDesc|] == expectedDesc;
    ok := true;
  }

  // ----- one uninterrupted drain -----

  /** An error was thrown, or the drain stopped behind a completion or at the end of the queue. */
  datatype DrainResult = Thrown | Drained(desc: Option<Desc>, completed: bool)

  /** How many messages a drain takes: up to and including the first error or completion. */
  function DrainLength(ms: seq<Message>): (n: nat)
    ensures n <= |ms|
  {
    if ms == [] then 0 else if ms[0].ErrorMessage? || ms[0].Complete? then 1 else 1 + DrainLength(ms[1..])
  }

  function FirstDescOf(ms: seq<Message>): Option<Desc> {
    if ms == [] then None else if ms[0].RowDescription? then Some(ms[0].types) else FirstDescOf(ms[1..])
  }

  lemma {:induction false} FirstDescEnd(ms: seq<Message>, m: Message)
    ensures FirstDescOf(ms + [m]) ==
      if FirstDescOf(ms).Some? then FirstDescOf(ms) else if m.RowDescription? then Some(m.types) else None
  {
    if ms == [] {
      assert (ms + [m])[1..] == [];
    } else {
      assert (ms + [m])[1..] == ms[1..] + [m];
      FirstDescEnd(ms[1..], m);
    }
  }

  function Readers(n: nat): seq<Step> {
    if n == 0 then [] else [Reader] + Readers(n - 1)
  }

  predicate Stops(m: Message) {
    m.ErrorMessage? || m.Complete?
  }

  /** Reader steps of one drain: one per message taken, and one more to find the queue empty. */
  function DrainSteps(ms: seq<Message>): nat {
    var n := DrainLength(ms);
    if n > 0 && Stops(ms[n - 1]) then n else n + 1
  }

  function OrElse(a: Option<Desc>, b: Option<Desc>): Option<Desc> {
    if a.Some? then a else b
  }

  function EndPhase(tupleDesc: Option<Desc>, workerDesc: Option<Desc>): Phase {
    if workerDesc.None? || tupleDesc.None? || tupleDesc == workerDesc then Polling else TypeMismatch
  }

  /** Where a drain leaves the reader, as the messages of one call decide it. */
  function DrainPhase(ms: seq<Message>, tupleDesc: Option<Desc>, workerDesc: Option<Desc>): Phase {
    var n := DrainLength(ms);
    if n > 0 && ms[n - 1].ErrorMessage? then WorkerError
    else EndPhase(tupleDesc, OrElse(workerDesc, FirstDescOf(ms[..n])))
  }

  lemma DrainPhaseStep(ms: seq<Message>, tupleDesc: Option<Desc>, workerDesc: Option<Desc>)
    requires ms != [] && !Stops(ms[0])
    ensures DrainPhase(ms, tupleDesc, workerDesc) ==
      DrainPhase(ms[1..], tupleDesc,
        if ms[0].RowDescription? then OrElse(workerDesc, Some(ms[0].types)) else workerDesc)
    ensures DrainSteps(ms) == DrainSteps(ms[1..]) + 1
  {
    var n := DrainLength(ms);
    assert ms[1..][..n - 1] == ms[..n][1..];
    assert n > 1 ==> ms[1..][n - 2] == ms[n - 1];
  }

  lemma DrainPhaseStop(ms: seq<Message>, tupleDesc: Option<Desc>, workerDesc: Option<Desc>)
    requires ms == [] || Stops(ms[0])
    ensures DrainSteps(ms) == 1
    ensures DrainPhase(ms, tupleDesc, workerDesc) ==
      if ms != [] && ms[0].ErrorMessage? then WorkerError else EndPhase(tupleDesc, workerDesc)
  {
    if ms != [] {
      assert ms[..1][0] == ms[0] && ms[..1][1..] == [];
      assert FirstDescOf(ms[..1]) == FirstDescOf([]) == None;
    } else {
      assert ms[..0] == [];
    }
  }

  lemma StopStep(s: State)
    requires s.phase.Draining? && (s.messages == [] || Stops(s.messages[0]))
    ensures DrainStep(s).messages == s.messages[DrainLength(s.messages)..]
    ensures DrainStep(s).phase ==
      if s.messages != [] && s.messages[0].ErrorMessage? then WorkerError else EndPhase(s.tupleDesc, s.workerDesc)
  {
  }

  lemma ReadStep(s: State)
    requires s.phase.Draining? && s.messages != [] && !Stops(s.messages[0])
    ensures var s', m := DrainStep(s), s.messages[0];
      && s'.phase.Draining? && s'.messages == s.messages[1..] && s'.tupleDesc == s.tupleDesc
      && s'.workerDesc == (if m.RowDescription? then OrElse(s.workerDesc, Some(m.types)) else s.workerDesc)
      && s.messages[DrainLength(s.messages)..] == s.messages[1..][DrainLength(s.messages[1..])..]
  {
  }

  /** With no worker step in between, the drain steps of the reader do what one call does: they take
      the same messages and leave with the same row description, or with the error. */
  lemma {:induction false} DrainIsReaderSteps(s: State) returns (s': State)
    requires s.phase.Draining?
    ensures Run(s, Readers(DrainSteps(s.messages))) == At(s')
    ensures s'.messages == s.messages[DrainLength(s.messages)..]
    ensures s'.phase == DrainPhase(s.messages, s.tupleDesc, s.workerDesc)
    decreases |s.messages|
  {
    var ms, k := s.messages, DrainSteps(s.messages);
    var s1 := DrainStep(s);
    assert Readers(k)[0] == Reader && Readers(k)[1..] == Readers(k - 1);
    if ms == [] || Stops(ms[0]) {
      DrainPhaseStop(ms, s.tupleDesc, s.workerDesc);
      StopStep(s);
      assert Run(s1, Readers(0)) == At(s1);
      s' := s1;
    } else {
      DrainPhaseStep(ms, s.tupleDesc, s.workerDesc);
      ReadStep(s);
      s' := DrainIsReaderSteps(s1);
    }
  }

  class ProtocolQueue {

    var messages: seq<Message>

    constructor (messages: seq<Message>)
      ensures this.messages == messages
    {
      this.messages := messages;
    }

    /** Reads without waiting. It takes exactly the messages up to the first error or completion, and
        reports the first row description among them. */
    method ProcessProtocolMessages() returns (r: DrainResult)
      modifies this
      ensures var n := DrainLength(old(messages));
        && messages == old(messages)[n..]
        && (r.Thrown? <==> n > 0 && old(messages)[n - 1].ErrorMessage?)
        && (r.Drained? ==>
              r.desc == FirstDescOf(old(messages)[..n]) && (r.completed <==> n > 0 && old(messages)[n - 1].Complete?))
    {
      ghost var all, i := messages, 0;
      var desc: Option<Desc> := None;
      while messages != []
        invariant 0 <= i <= |all| && messages == all[i..]
        invariant DrainLength(all) == i + DrainLength(all[i..])
        invariant desc == FirstDescOf(all[..i])
        invariant i > 0 ==> !all[i - 1].ErrorMessage? && !all[i - 1].Complete?
        decreases |messages|
      {
        var m := messages[0];
        assert all[i..][1..] == all[i + 1..] && all[..i + 1] == all[..i] + [m];
        FirstDescEnd(all[..i], m);
        messages, i := messages[1..], i + 1;
        if m.ErrorMessage? {
          return Thrown;
        } else if m.Complete? {
          return Drained(desc, true);
        } else if m.RowDescription? && desc.None? {
          desc := Some(m.types);
        }
      }
      r := Drained(desc, false);
    }
  }
}
