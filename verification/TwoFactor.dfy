/**
 Creating and switching the two-factor secret of one identity. The row's primary key is the user id, so there
 is at most one row. `generateSecret` reads, inserts a fresh secret and, when the insert meets a duplicate,
 reads again; `register` and `unregister` read the row, change its status and write all of it back.

 Every call is a process that stops at each await; one event serves one database command or resumes one call.
 A call that is handed an already loaded record is a call whose read was served earlier.
 */
module TwoFactor {
  import opened Options

  datatype Status = UNKNOWN | ENABLED | DISABLED | UNAUTHORIZED

  /** The stored record; an empty secret stands for a missing one. */
  datatype Row = Row(totpSecret: string, totpStatus: Status)

  datatype Operation = GenerateSecret | Register | Unregister

  datatype Phase =
    | AwaitFind
    | Found(record: Option<Row>)
    | AwaitInsert(secret: string)
    | AwaitSecondFind
    | FoundAgain(record: Option<Row>)
    | AwaitUpdate(update: Row)
    | Returned(secretKey: string)        // `generateSecret` gave its caller this secret
    | Answered(success: bool)            // `register` or `unregister` ended
    | Threw

  datatype Process = Process(operation: Operation, phase: Phase)

  datatype State = State(row: Option<Row>, processes: map<int, Process>)

  datatype Event =
    | Start(p: int, operation: Operation)
    | ServeFind(p: int)
    | Resume(p: int, drawn: string)      // `drawn`: the random secret, should the call need one
    | ServeInsert(p: int)
    | ServeUpdate(p: int)
    | CommandFails(p: int)

  // ---------------------------------------------------------------- the transition system

  predicate Enabled(s: State, e: Event) {
    match e
    case Start(p, _) => p !in s.processes
    case _ =>
      e.p in s.processes
      && var phase := s.processes[e.p].phase;
         match e
         case ServeFind(_) => phase.AwaitFind? || phase.AwaitSecondFind?
         case Resume(_, drawn) => (phase.Found? || phase.FoundAgain?) && drawn != ""
         case ServeInsert(_) => phase.AwaitInsert?
         case ServeUpdate(_) => phase.AwaitUpdate?
         case _ => phase.AwaitFind? || phase.AwaitSecondFind? || phase.AwaitInsert? || phase.AwaitUpdate?
  }

  predicate HasSecret(record: Option<Row>) {
    record.Some? && record.value.totpSecret != ""
  }

  /** What a call does with the record it has read. */
  function AfterFind(operation: Operation, record: Option<Row>, drawn: string): Phase {
    match operation
    case GenerateSecret => if HasSecret(record) then Returned(record.value.totpSecret) else AwaitInsert(drawn)
    case Register =>
      if !HasSecret(record) then Answered(false) else AwaitUpdate(record.value.(totpStatus := ENABLED))
    case Unregister =>
      if record.None? || record.value.totpStatus != ENABLED then Answered(false)
      else AwaitUpdate(record.value.(totpStatus := DISABLED))
  }

  /** What `generateSecret` does with the record it has read after a duplicate. */
  function AfterSecondFind(record: Option<Row>): Phase {
    if HasSecret(record) then Returned(record.value.totpSecret) else Threw
  }

  function MoveTo(s: State, p: int, phase: Phase): State
    requires p in s.processes
  {
    s.(processes := s.processes[p := s.processes[p].(phase := phase)])
  }

  function Apply(s: State, e: Event): State
    requires Enabled(s, e)
  {
    match e
    case Start(p, operation) => s.(processes := s.processes[p := Process(operation, AwaitFind)])
    case ServeFind(p) =>
      MoveTo(s, p, if s.processes[p].phase.AwaitFind? then Found(s.row) else FoundAgain(s.row))
    case Resume(p, drawn) =>
      var Process(operation, phase) := s.processes[p];
      MoveTo(s, p, if phase.Found? then AfterFind(operation, phase.record, drawn) else AfterSecondFind(phase.record))
    case ServeInsert(p) =>
      var secret := s.processes[p].phase.secret;
      if s.row.None? then MoveTo(s.(row := Some(Row(secret, UNAUTHORIZED))), p, Returned(secret))
      else MoveTo(s, p, AwaitSecondFind)
    case ServeUpdate(p) =>
      var row := if s.row.None? then None else Some(s.processes[p].phase.update);
      MoveTo(s.(row := row), p, Answered(true))
    case CommandFails(p) => MoveTo(s, p, Threw)
  }

  function Step(s: State, e: Event): State {
    if Enabled(s, e) then Apply(s, e) else s
  }

  function Run(start: State, events: seq<Event>): State {
    if events == [] then start else Step(Run(start, events[..|events| - 1]), events[|events| - 1])
  }

  // ---------------------------------------------------------------- the code between two awaits

  class TwoFactorStore {
    var row: Option<Row>
    var processes: map<int, Process>

    ghost function View(): State
      reads this
    {
      State(row, processes)
    }

    constructor (row: Option<Row>)
      ensures View() == State(row, map[])
    {
      this.row, processes := row, map[];
    }

    /** `generateSecret` up to its insert, once its first read is answered. */
    method ResumeGenerate(p: int, drawn: string)
      requires Enabled(View(), Resume(p, drawn)) && processes[p].operation.GenerateSecret?
      requires processes[p].phase.Found?
      modifies this
      ensures View() == Apply(old(View()), Resume(p, drawn))
    {
      var record := processes[p].phase.record;
      var next := AwaitInsert(drawn);
      if record.Some? {
        if record.value.totpSecret != "" {
          next := Returned(record.value.totpSecret);
        }
      }
      processes := processes[p := processes[p].(phase := next)];
    }

    /** The database executes the insert: it creates the row or reports a duplicate key. */
    method Insert(p: int)
      requires Enabled(View(), ServeInsert(p))
      modifies this
      ensures View() == Apply(old(View()), ServeInsert(p))
    {
      var secret := processes[p].phase.secret;
      var next := AwaitSecondFind;
      if row.None? {
        row := Some(Row(secret, UNAUTHORIZED));
        next := Returned(secret);
      }
      processes := processes[p := processes[p].(phase := next)];
    }

    /** `register` once the record is loaded. */
    method ResumeRegister(p: int, drawn: string)
      requires Enabled(View(), Resume(p, drawn)) && processes[p].operation.Register?
      requires processes[p].phase.Found?
      modifies this
      ensures View() == Apply(old(View()), Resume(p, drawn))
    {
      var local2FA := processes[p].phase.record;
      var next := Answered(false);
      if local2FA.Some? && local2FA.value.totpSecret != "" {
        next := AwaitUpdate(Row(local2FA.value.totpSecret, ENABLED));
      }
      processes := processes[p := processes[p].(phase := next)];
    }

    /** `unregister` once the record is loaded. */
    method ResumeUnregister(p: int, drawn: string)
      requires Enabled(View(), Resume(p, drawn)) && processes[p].operation.Unregister?
      requires processes[p].phase.Found?
      modifies this
      ensures View() == Apply(old(View()), Resume(p, drawn))
    {
      var local2FA := processes[p].phase.record;
      var next := Answered(false);
      if local2FA.Some? && local2FA.value.totpStatus == ENABLED {
        next := AwaitUpdate(Row(local2FA.value.totpSecret, DISABLED));
      }
      processes := processes[p := processes[p].(phase := next)];
    }

    /** The database executes the update of a whole record. */
    method Update(p: int)
      requires Enabled(View(), ServeUpdate(p))
      modifies this
      ensures View() == Apply(old(View()), ServeUpdate(p))
    {
      if row.Some? {
        row := Some(processes[p].phase.update);
      }
      processes := processes[p := processes[p].(phase := Answered(true))];
    }
  }

  // ---------------------------------------------------------------- the invariant

  /** The record has the stored secret. */
  predicate Agrees(s: State, record: Row) {
    s.row.Some? && s.row.value.totpSecret == record.totpSecret
  }

  /** Whatever a call has read, will write or has returned carries the stored secret. */
  predicate Consistent(s: State, phase: Phase) {
    match phase
    case Found(record) => record.Some? ==> Agrees(s, record.value)
    case AwaitSecondFind => s.row.Some?
    case FoundAgain(record) => record.Some? && Agrees(s, record.value)
    case AwaitInsert(secret) => secret != ""
    case AwaitUpdate(update) =>
      Agrees(s, update) && (update.totpStatus == DISABLED || (update.totpStatus == ENABLED && update.totpSecret != ""))
    case Returned(secret) => secret != "" && s.row.Some? && s.row.value.totpSecret == secret
    case _ => true
  }

  ghost predicate Sound(s: State) {
    forall p :: p in s.processes ==> Consistent(s, s.processes[p].phase)
  }

  /** The secret of an existing row stays, and its status does not become UNAUTHORIZED again. */
  predicate Kept(before: Option<Row>, after: Option<Row>) {
    before.Some? ==>
      && after.Some?
      && after.value.totpSecret == before.value.totpSecret
      && (before.value.totpStatus != UNAUTHORIZED ==> after.value.totpStatus != UNAUTHORIZED)
  }

  lemma StepKeepsRow(s: State, e: Event)
    requires Sound(s)
    ensures Kept(s.row, Step(s, e).row)
    ensures (s.row.Some? && s.row.value.totpStatus == ENABLED ==> s.row.value.totpSecret != "") ==>
              var row := Step(s, e).row;
              row.Some? && row.value.totpStatus == ENABLED ==> row.value.totpSecret != ""
  {
  }

  lemma StepKeepsSound(s: State, e: Event)
    requires Sound(s)
    ensures Sound(Step(s, e))
  {
  }

  lemma {:induction false} RunIsSound(start: State, events: seq<Event>)
    requires start.processes == map[]
    ensures Sound(Run(start, events))
    decreases |events|
  {
    if events != [] {
      RunIsSound(start, events[..|events| - 1]);
      StepKeepsSound(Run(start, events[..|events| - 1]), events[|events| - 1]);
    }
  }

  // ---------------------------------------------------------------- the results

  /** In every interleaving all `generateSecret` calls that return give the same secret: the stored one. */
  lemma OneSecret(start: State, events: seq<Event>, p: int, q: int)
    requires start.processes == map[]
    requires var s := Run(start, events);
             && p in s.processes && s.processes[p].phase.Returned?
             && q in s.processes && s.processes[q].phase.Returned?
    ensures var s := Run(start, events);
            && s.row.Some?
            && s.processes[p].phase.secretKey == s.processes[q].phase.secretKey == s.row.value.totpSecret
            && s.row.value.totpSecret != ""
  {
    RunIsSound(start, events);
    var s := Run(start, events);
    assert Consistent(s, s.processes[p].phase) && Consistent(s, s.processes[q].phase);
  }

  /** From any moment of a run on, an existing row keeps its secret, and a status that has left UNAUTHORIZED
      never returns to it. */
  lemma {:induction false} SecretIsPermanent(start: State, events: seq<Event>, i: nat)
    requires start.processes == map[] && i <= |events|
    ensures Kept(Run(start, events[..i]).row, Run(start, events).row)
    decreases |events|
  {
    if i == |events| {
      assert events[..i] == events;
    } else {
      var n := |events| - 1;
      assert events[..n][..i] == events[..i];
      SecretIsPermanent(start, events[..n], i);
      RunIsSound(start, events[..n]);
      StepKeepsRow(Run(start, events[..n]), events[n]);
    }
  }

  /** Two-factor authentication is never enabled without a secret. */
  lemma {:induction false} EnabledHasSecret(start: State, events: seq<Event>)
    requires start.processes == map[]
    requires start.row.Some? && start.row.value.totpStatus == ENABLED ==> start.row.value.totpSecret != ""
    ensures var row := Run(start, events).row;
            row.Some? && row.value.totpStatus == ENABLED ==> row.value.totpSecret != ""
    decreases |events|
  {
    if events != [] {
      var n := |events| - 1;
      EnabledHasSecret(start, events[..n]);
      RunIsSound(start, events[..n]);
      StepKeepsRow(Run(start, events[..n]), events[n]);
    }
  }

  /** A `generateSecret` call that met a duplicate throws on its second read exactly when the stored row has no
      secret, and otherwise returns the stored one. */
  lemma DuplicateThrowsIffNoSecret(start: State, events: seq<Event>, p: int, drawn: string)
    requires start.processes == map[]
    requires Enabled(Run(start, events), Resume(p, drawn))
    requires Run(start, events).processes[p].phase.FoundAgain?
    ensures var s := Run(start, events);
            Step(s, Resume(p, drawn)).processes[p].phase
            == if HasSecret(s.row) then Returned(s.row.value.totpSecret) else Threw
  {
    RunIsSound(start, events);
    assert Consistent(Run(start, events), Run(start, events).processes[p].phase);
  }

  // ---------------------------------------------------------------- one call on its own

  /** Every event of one call, in order; those it does not need change nothing. */
  function Whole(p: int, operation: Operation, drawn: string): seq<Event> {
    [Start(p, operation), ServeFind(p), Resume(p, drawn), ServeInsert(p), ServeFind(p), Resume(p, drawn),
     ServeUpdate(p)]
  }

  lemma RunSteps(start: State, events: seq<Event>, e: Event)
    ensures Run(start, events + [e]) == Step(Run(start, events), e)
  {
    assert (events + [e])[..|events|] == events;
  }

  lemma RunTwo(s: State, events: seq<Event>, a: Event, b: Event)
    ensures Run(s, events + [a, b]) == Step(Step(Run(s, events), a), b)
  {
    RunSteps(s, events, a);
    RunSteps(s, events + [a], b);
    assert events + [a, b] == events + [a] + [b];
  }

  lemma ReadAlone(s: State, p: int, operation: Operation, drawn: string)
    requires p !in s.processes && drawn != ""
    ensures Step(Step(Step(s, Start(p, operation)), ServeFind(p)), Resume(p, drawn))
            == s.(processes := s.processes[p := Process(operation, AfterFind(operation, s.row, drawn))])
  {
    var s2 := Step(Step(s, Start(p, operation)), ServeFind(p));
    assert s2 == s.(processes := s.processes[p := Process(operation, Found(s.row))]);
  }

  lemma RunWhole(s: State, p: int, operation: Operation, drawn: string)
    ensures var read := Step(Step(Step(s, Start(p, operation)), ServeFind(p)), Resume(p, drawn));
            var again := Step(Step(Step(read, ServeInsert(p)), ServeFind(p)), Resume(p, drawn));
            Run(s, Whole(p, operation, drawn)) == Step(again, ServeUpdate(p))
  {
    var find, resume := ServeFind(p), Resume(p, drawn);
    var e1 := [] + [Start(p, operation)];
    var e3 := e1 + [find, resume];
    var e5 := e3 + [ServeInsert(p), find];
    RunSteps(s, [], Start(p, operation));
    RunTwo(s, e1, find, resume);
    RunTwo(s, e3, ServeInsert(p), find);
    RunTwo(s, e5, resume, ServeUpdate(p));
    assert Whole(p, operation, drawn) == e5 + [resume, ServeUpdate(p)];
  }

  /** What one call on its own stores and answers, on every row: `generateSecret` creates the row, keeps it, or
      throws on a row without a secret; `register` enables exactly a row with a secret, and `unregister` disables
      exactly an enabled row. */
  lemma CallAlone(s: State, p: int, operation: Operation, drawn: string)
    requires p !in s.processes && drawn != ""
    ensures var t := Run(s, Whole(p, operation, drawn));
            p in t.processes
            && var phase := t.processes[p].phase;
               match operation
               case GenerateSecret =>
                 && t.row == (if s.row.None? then Some(Row(drawn, UNAUTHORIZED)) else s.row)
                 && phase == (if HasSecret(t.row) then Returned(t.row.value.totpSecret) else Threw)
               case Register =>
                 && phase == Answered(HasSecret(s.row))
                 && t.row == if HasSecret(s.row) then Some(s.row.value.(totpStatus := ENABLED)) else s.row
               case Unregister =>
                 && (phase == Answered(true) <==> s.row.Some? && s.row.value.totpStatus == ENABLED)
                 && (phase == Answered(true) ==> t.row == Some(s.row.value.(totpStatus := DISABLED)))
                 && (phase != Answered(true) ==> phase == Answered(false) && t.row == s.row)
  {
    RunWhole(s, p, operation, drawn);
    ReadAlone(s, p, operation, drawn);
  }

  // ---------------------------------------------------------------- what an answer means

  /** The update of call `p` was executed in the run. */
  predicate Updated(start: State, events: seq<Event>, p: int) {
    events != []
    && var n := |events| - 1;
       || (events[n] == ServeUpdate(p) && Enabled(Run(start, events[..n]), events[n]))
       || Updated(start, events[..n], p)
  }

  /** A database command of call `p` failed in the run. */
  predicate Broke(start: State, events: seq<Event>, p: int) {
    events != []
    && var n := |events| - 1;
       || (events[n] == CommandFails(p) && Enabled(Run(start, events[..n]), events[n]))
       || Broke(start, events[..n], p)
  }

  ghost predicate Told(start: State, events: seq<Event>, p: int) {
    var s := Run(start, events);
    && (p !in s.processes ==> !Updated(start, events, p) && !Broke(start, events, p))
    && (p in s.processes ==>
          var Process(operation, phase) := s.processes[p];
          && (Updated(start, events, p) <==> phase == Answered(true))
          && (Broke(start, events, p) ==> phase == Threw)
          && (phase == Threw && !operation.GenerateSecret? ==> Broke(start, events, p))
          && (phase.AwaitInsert? || phase.AwaitSecondFind? || phase.FoundAgain? || phase.Returned? ==>
                operation.GenerateSecret?))
  }

  lemma {:induction false} RunIsTold(start: State, events: seq<Event>, p: int)
    requires start.processes == map[]
    ensures Told(start, events, p)
    decreases |events|
  {
    if events != [] {
      RunIsTold(start, events[..|events| - 1], p);
    }
  }

  /** In every interleaving a call answers with success exactly when its update was executed, and a call one of whose
      commands failed throws; `register` and `unregister` throw for no other reason. */
  lemma AnswerTellsTheUpdate(start: State, events: seq<Event>, p: int)
    requires start.processes == map[] && p in Run(start, events).processes
    ensures var Process(operation, phase) := Run(start, events).processes[p];
            && (phase == Answered(true) <==> Updated(start, events, p))
            && (Broke(start, events, p) ==> phase == Threw)
            && (!operation.GenerateSecret? ==> (phase == Threw <==> Broke(start, events, p)))
  {
    RunIsTold(start, events, p);
  }

  /** A failed command changes nothing, and a row only ever appears through the insert of a drawn secret. */
  lemma RowAppearsByInsert(s: State, e: Event)
    ensures e.CommandFails? ==> Step(s, e).row == s.row
    ensures s.row.None? && Step(s, e).row.Some? ==>
              && e.ServeInsert? && Enabled(s, e)
              && Step(s, e).row == Some(Row(s.processes[e.p].phase.secret, UNAUTHORIZED))
  {
  }
}
