/** One outcome per (user, client order id): lookups, the claim-and-append script, rejections, halts, lost
    replies and retries, in any interleaving before the keys expire. */
module Idempotency {

  type Key = (int, int)

  /** An acceptance names its record by its position on the stream. */
  datatype Outcome = Accepted(seqNo: nat) | Rejected(reason: int)

  /** What a client is told. `Halted` and `Failed` decide nothing: the client is to ask again. */
  datatype Answer = Decided(outcome: Outcome) | InProgress | Halted | Failed

  /** An order or cancel record under its key; other records have none. */
  datatype Entry = Keyed(key: Key, cancels: bool) | Unkeyed

  datatype Phase = Asked | Missed | Rejecting(reason: int) | Refetching

  datatype Request = Request(key: Key, cancels: bool, phase: Phase)

  /** The store, the requests being served, and everything clients have been told. */
  datatype System = System(outcomes: map<Key, Outcome>, stream: seq<Entry>, requests: map<nat, Request>,
                           answers: seq<(Key, Answer)>)

  datatype Event =
    | Ask(id: nat, key: Key, cancels: bool)
    | Lookup(id: nat)
    | SayInProgress(id: nat)
    | Refuse(id: nat, reason: int)
    | SetIfAbsent(id: nat)
    | Refetch(id: nat)
    | Claim(id: nat, replyLost: bool)
    | Halt(id: nat)
    | AppendOther

  function Start(): System {
    System(map[], [], map[], [])
  }

  // ---- the store's atomic steps ------------------------------------------------------------------

  /** The script: report the stored outcome, or append and store the acceptance, in one step. */
  function Claimed(s: System, key: Key, cancels: bool): (System, Outcome) {
    if key in s.outcomes then (s, s.outcomes[key])
    else
      var outcome := Accepted(|s.stream|);
      (s.(stream := s.stream + [Keyed(key, cancels)], outcomes := s.outcomes[key := outcome]), outcome)
  }

  function Answered(s: System, id: nat, answer: Answer): System
    requires id in s.requests
  {
    s.(requests := s.requests - {id}, answers := s.answers + [(s.requests[id].key, answer)])
  }

  function Moved(s: System, id: nat, phase: Phase): System
    requires id in s.requests
  {
    s.(requests := s.requests[id := s.requests[id].(phase := phase)])
  }

  predicate Enabled(s: System, e: Event) {
    match e
    case Ask(id, _, _) => id !in s.requests
    case Lookup(id) => id in s.requests && s.requests[id].phase == Asked
    case SayInProgress(id) => id in s.requests && s.requests[id].phase == Missed && !s.requests[id].cancels
    case Refuse(id, _) => id in s.requests && s.requests[id].phase == Missed && !s.requests[id].cancels
    case SetIfAbsent(id) => id in s.requests && s.requests[id].phase.Rejecting?
    case Refetch(id) => id in s.requests && s.requests[id].phase == Refetching && s.requests[id].key in s.outcomes
    case Claim(id, _) => id in s.requests && s.requests[id].phase == Missed
    case Halt(id) => id in s.requests && s.requests[id].phase == Missed
    case AppendOther => true
  }

  function Perform(s: System, e: Event): System
    requires Enabled(s, e)
  {
    match e
    case Ask(id, key, cancels) => s.(requests := s.requests[id := Request(key, cancels, Asked)])
    case Lookup(id) =>
      var key := s.requests[id].key;
      if key in s.outcomes then Answered(s, id, Decided(s.outcomes[key])) else Moved(s, id, Missed)
    case SayInProgress(id) => Answered(s, id, InProgress)
    case Refuse(id, reason) => Moved(s, id, Rejecting(reason))
    case SetIfAbsent(id) =>
      var key, outcome := s.requests[id].key, Rejected(s.requests[id].phase.reason);
      if key in s.outcomes then Moved(s, id, Refetching)
      else Answered(s.(outcomes := s.outcomes[key := outcome]), id, Decided(outcome))
    case Refetch(id) => Answered(s, id, Decided(s.outcomes[s.requests[id].key]))
    case Claim(id, replyLost) =>
      var (after, outcome) := Claimed(s, s.requests[id].key, s.requests[id].cancels);
      Answered(after, id, if replyLost then Failed else Decided(outcome))
    case Halt(id) => Answered(s, id, Halted)
    case AppendOther => s.(stream := s.stream + [Unkeyed])
  }

  // ---- what holds --------------------------------------------------------------------------------

  ghost predicate RecordOf(stream: seq<Entry>, i: nat, key: Key) {
    i < |stream| && stream[i].Keyed? && stream[i].key == key
  }

  /** A record is on the stream exactly when its key's outcome is the acceptance that names it. */
  ghost predicate StoreSound(s: System) {
    forall key, i: nat :: RecordOf(s.stream, i, key) <==> key in s.outcomes && s.outcomes[key] == Accepted(i)
  }

  /** Every decided answer is the stored outcome of its key. */
  ghost predicate AnswersSound(s: System) {
    forall j :: 0 <= j < |s.answers| && s.answers[j].1.Decided? ==>
      s.answers[j].0 in s.outcomes && s.outcomes[s.answers[j].0] == s.answers[j].1.outcome
  }

  /** A request that found its rejection refused has an outcome to fetch. */
  ghost predicate RequestsSound(s: System) {
    forall id :: id in s.requests && s.requests[id].phase == Refetching ==> s.requests[id].key in s.outcomes
  }

  ghost predicate Inv(s: System) {
    StoreSound(s) && AnswersSound(s) && RequestsSound(s)
  }

  /** Outcomes are written once: nothing stored is ever changed or removed. */
  ghost predicate Keeps(a: map<Key, Outcome>, b: map<Key, Outcome>) {
    forall key :: key in a ==> key in b && b[key] == a[key]
  }

  lemma ClaimKeeps(s: System, key: Key, cancels: bool)
    requires Inv(s)
    ensures var (after, outcome) := Claimed(s, key, cancels);
      && Inv(after) && Keeps(s.outcomes, after.outcomes) && key in after.outcomes && after.outcomes[key] == outcome
      && after.requests == s.requests && after.answers == s.answers
  {
    if key !in s.outcomes {
      var after := Claimed(s, key, cancels).0;
      forall k, i: nat ensures RecordOf(after.stream, i, k)
        <==> k in after.outcomes && after.outcomes[k] == Accepted(i)
      {
        assert RecordOf(s.stream, i, k) <==> k in s.outcomes && s.outcomes[k] == Accepted(i);
        assert i < |s.stream| ==> after.stream[i] == s.stream[i];
      }
    }
  }

  lemma AnswerKeeps(s: System, id: nat, answer: Answer)
    requires Inv(s) && id in s.requests
    requires answer.Decided? ==> s.requests[id].key in s.outcomes && s.outcomes[s.requests[id].key] == answer.outcome
    ensures Inv(Answered(s, id, answer))
  {
    hide StoreSound;
    assert StoreSound(Answered(s, id, answer)) by { SameStore(s, Answered(s, id, answer)); }
  }

  lemma SameStore(s: System, s': System)
    requires StoreSound(s) && s'.outcomes == s.outcomes && s'.stream == s.stream
    ensures StoreSound(s')
  {
    forall key, i: nat ensures RecordOf(s'.stream, i, key) <==> key in s'.outcomes && s'.outcomes[key] == Accepted(i) {
      assert RecordOf(s.stream, i, key) <==> key in s.outcomes && s.outcomes[key] == Accepted(i);
    }
  }

  lemma RejectKeeps(s: System, key: Key, reason: int)
    requires Inv(s) && key !in s.outcomes
    ensures Inv(s.(outcomes := s.outcomes[key := Rejected(reason)]))
  {
    var s' := s.(outcomes := s.outcomes[key := Rejected(reason)]);
    forall k, i: nat ensures RecordOf(s'.stream, i, k) <==> k in s'.outcomes && s'.outcomes[k] == Accepted(i) {
      assert RecordOf(s.stream, i, k) <==> k in s.outcomes && s.outcomes[k] == Accepted(i);
    }
  }

  lemma OtherKeeps(s: System)
    requires Inv(s)
    ensures Inv(s.(stream := s.stream + [Unkeyed]))
  {
    var s' := s.(stream := s.stream + [Unkeyed]);
    forall k, i: nat ensures RecordOf(s'.stream, i, k) <==> k in s'.outcomes && s'.outcomes[k] == Accepted(i) {
      assert RecordOf(s.stream, i, k) <==> k in s.outcomes && s.outcomes[k] == Accepted(i);
      assert i < |s.stream| ==> s'.stream[i] == s.stream[i];
    }
  }

  lemma EventKeeps(s: System, e: Event)
    requires Inv(s) && Enabled(s, e)
    ensures Inv(Perform(s, e)) && Keeps(s.outcomes, Perform(s, e).outcomes)
  {
    hide StoreSound, AnswersSound, RecordOf;
    match e
    case Ask(id, key, cancels) => SameAnswers(s, Perform(s, e));
    case Lookup(id) =>
      if s.requests[id].key in s.outcomes { AnswerKeeps(s, id, Decided(s.outcomes[s.requests[id].key])); }
      else { SameAnswers(s, Perform(s, e)); }
    case SayInProgress(id) => AnswerKeeps(s, id, InProgress);
    case Refuse(id, reason) => SameAnswers(s, Perform(s, e));
    case SetIfAbsent(id) =>
      var key, reason := s.requests[id].key, s.requests[id].phase.reason;
      if key in s.outcomes {
        SameAnswers(s, Perform(s, e));
      } else {
        RejectKeeps(s, key, reason);
        AnswerKeeps(s.(outcomes := s.outcomes[key := Rejected(reason)]), id, Decided(Rejected(reason)));
      }
    case Refetch(id) => AnswerKeeps(s, id, Decided(s.outcomes[s.requests[id].key]));
    case Claim(id, replyLost) =>
      var (after, outcome) := Claimed(s, s.requests[id].key, s.requests[id].cancels);
      ClaimKeeps(s, s.requests[id].key, s.requests[id].cancels);
      AnswerKeeps(after, id, if replyLost then Failed else Decided(outcome));
    case Halt(id) => AnswerKeeps(s, id, Halted);
    case AppendOther => OtherKeeps(s);
  }

  lemma SameAnswers(s: System, s': System)
    requires Inv(s) && s' == s.(requests := s'.requests)
    ensures StoreSound(s') && AnswersSound(s')
  {
    SameStore(s, s');
  }

  // ---- runs --------------------------------------------------------------------------------------

  /** `events` lead from `s` to the result, one enabled step after another. */
  ghost predicate Runs(s: System, events: seq<Event>, end: System)
    decreases |events|
  {
    if events == [] then s == end
    else Enabled(s, events[0]) && Runs(Perform(s, events[0]), events[1..], end)
  }

  lemma {:induction false} RunKeeps(s: System, events: seq<Event>, end: System)
    requires Inv(s) && Runs(s, events, end)
    ensures Inv(end) && Keeps(s.outcomes, end.outcomes)
    decreases |events|
  {
    hide Inv, Enabled, Perform;
    if events != [] {
      EventKeeps(s, events[0]);
      RunKeeps(Perform(s, events[0]), events[1..], end);
    }
  }

  /** Answer `i` decided this key. */
  predicate ToldOutcome(s: System, i: int, key: Key) {
    0 <= i < |s.answers| && s.answers[i].0 == key && s.answers[i].1.Decided?
  }

  /** In every run: a key has at most one record; an acceptance names it and a rejection means there is none;
      no key is ever told two different outcomes, and what it is told is what stays stored. */
  lemma WrittenOnce(events: seq<Event>, s: System, key: Key)
    requires Runs(Start(), events, s)
    ensures forall i, j :: RecordOf(s.stream, i, key) && RecordOf(s.stream, j, key) ==> i == j
    ensures key in s.outcomes && s.outcomes[key].Accepted? ==> RecordOf(s.stream, s.outcomes[key].seqNo, key)
    ensures key in s.outcomes && s.outcomes[key].Rejected? ==> forall i :: !RecordOf(s.stream, i, key)
    ensures key !in s.outcomes ==> forall i :: !RecordOf(s.stream, i, key)
    ensures forall i, j :: ToldOutcome(s, i, key) && ToldOutcome(s, j, key) ==> s.answers[i].1 == s.answers[j].1
  {
    RunKeeps(Start(), events, s);
    hide RecordOf;
  }

  /** A stored outcome survives everything that can happen afterwards. */
  lemma OutcomesLast(events: seq<Event>, s: System, more: seq<Event>, later: System, key: Key)
    requires Runs(Start(), events, s) && Runs(s, more, later) && key in s.outcomes
    ensures key in later.outcomes && later.outcomes[key] == s.outcomes[key]
  {
    RunKeeps(Start(), events, s);
    RunKeeps(s, more, later);
  }

  /** A request whose rejection lost the race always finds the outcome that won. */
  lemma RefetchNeverMisses(events: seq<Event>, s: System, id: nat)
    requires Runs(Start(), events, s) && id in s.requests && s.requests[id].phase == Refetching
    ensures Enabled(s, Refetch(id))
  {
    RunKeeps(Start(), events, s);
  }

  // ---- what is stored was asked for ----------------------------------------------------------------

  /** Somebody asked for this: an order, or a cancel, under this key. */
  ghost predicate AskedFor(events: seq<Event>, key: Key, cancels: bool) {
    exists i :: 0 <= i < |events| && events[i].Ask? && events[i].key == key && events[i].cancels == cancels
  }

  /** Some check refused an order with this reason. */
  ghost predicate RefusedFor(events: seq<Event>, reason: int) {
    exists i :: 0 <= i < |events| && events[i].Refuse? && events[i].reason == reason
  }

  /** Every record and every request being served is what somebody asked for, and every rejection names the reason
      of a refusal. */
  ghost predicate Traced(s: System, events: seq<Event>) {
    && (forall i :: 0 <= i < |s.stream| && s.stream[i].Keyed? ==>
          AskedFor(events, s.stream[i].key, s.stream[i].cancels))
    && (forall id :: id in s.requests ==> AskedFor(events, s.requests[id].key, s.requests[id].cancels))
    && (forall id :: id in s.requests && s.requests[id].phase.Rejecting? ==>
          RefusedFor(events, s.requests[id].phase.reason) && !s.requests[id].cancels)
    && (forall key :: key in s.outcomes && s.outcomes[key].Rejected? ==>
          RefusedFor(events, s.outcomes[key].reason) && AskedFor(events, key, false))
  }

  lemma AskedBefore(events: seq<Event>, e: Event)
    ensures forall key, cancels :: AskedFor(events, key, cancels) ==> AskedFor(events + [e], key, cancels)
    ensures forall reason :: RefusedFor(events, reason) ==> RefusedFor(events + [e], reason)
    ensures e.Ask? ==> AskedFor(events + [e], e.key, e.cancels)
    ensures e.Refuse? ==> RefusedFor(events + [e], e.reason)
  {
    var more := events + [e];
    assert more[|events|] == e;
    forall key, cancels | AskedFor(events, key, cancels) ensures AskedFor(more, key, cancels) {
      var i :| 0 <= i < |events| && events[i].Ask? && events[i].key == key && events[i].cancels == cancels;
      assert more[i] == events[i];
    }
    forall reason | RefusedFor(events, reason) ensures RefusedFor(more, reason) {
      var i :| 0 <= i < |events| && events[i].Refuse? && events[i].reason == reason;
      assert more[i] == events[i];
    }
  }

  lemma StepTraced(s: System, events: seq<Event>, e: Event)
    requires Traced(s, events) && Enabled(s, e)
    ensures Traced(Perform(s, e), events + [e])
  {
    AskedBefore(events, e);
    hide AskedFor, RefusedFor;
  }

  lemma {:induction false} RunTraced(s: System, past: seq<Event>, events: seq<Event>, end: System)
    requires Traced(s, past) && Runs(s, events, end)
    ensures Traced(end, past + events)
    decreases |events|
  {
    hide Traced, Enabled, Perform;
    if events == [] {
      assert past + [] == past;
    } else {
      StepTraced(s, past, events[0]);
      RunTraced(Perform(s, events[0]), past + [events[0]], events[1..], end);
      assert past + events == (past + [events[0]]) + events[1..];
    }
  }

  /** In every run, a record under a key is an order where an order was asked for under it and a cancel where a
      cancel was; and a key whose outcome is a rejection was asked for as an order and refused for that reason. */
  lemma StoredAsAsked(events: seq<Event>, s: System, key: Key, i: nat)
    requires Runs(Start(), events, s)
    ensures RecordOf(s.stream, i, key) ==> AskedFor(events, key, s.stream[i].cancels)
    ensures key in s.outcomes && s.outcomes[key].Rejected? ==>
      AskedFor(events, key, false) && RefusedFor(events, s.outcomes[key].reason)
  {
    assert Traced(Start(), []);
    RunTraced(Start(), [], events, s);
    assert [] + events == events;
    hide AskedFor, RefusedFor;
  }

  // ---- what a client is told ---------------------------------------------------------------------

  function Told(s: System, key: Key, outcome: Outcome): System {
    s.(answers := s.answers + [(key, Decided(outcome))])
  }

  function Stored(s: System, key: Key, outcome: Outcome): System {
    s.(outcomes := s.outcomes[key := outcome])
  }

  function AppendedUnder(s: System, key: Key, cancels: bool): System {
    s.(stream := s.stream + [Keyed(key, cancels)])
  }

  lemma RunsOn(s: System, e: Event, more: seq<Event>, end: System)
    requires Enabled(s, e) && Runs(Perform(s, e), more, end)
    ensures Runs(s, [e] + more, end)
  {
    hide Enabled, Perform;
    assert ([e] + more)[1..] == more;
  }

  /** Asking again for a key with an outcome is told that outcome, and changes nothing. */
  lemma RetryIsTold(s: System, id: nat, key: Key, cancels: bool)
    requires id !in s.requests && key in s.outcomes
    ensures Runs(s, [Ask(id, key, cancels)] + ([Lookup(id)] + []), Told(s, key, s.outcomes[key]))
  {
    var asked := Perform(s, Ask(id, key, cancels));
    assert Perform(asked, Lookup(id)).requests == s.requests;
    RunsOn(asked, Lookup(id), [], Told(s, key, s.outcomes[key]));
    RunsOn(s, Ask(id, key, cancels), [Lookup(id)] + [], Told(s, key, s.outcomes[key]));
  }

  /** A request that claims a free key appends its record, and is told where it stands. */
  lemma ClaimIsTold(s: System, id: nat, key: Key, cancels: bool)
    requires id !in s.requests && key !in s.outcomes
    ensures var outcome := Accepted(|s.stream|);
      Runs(s, [Ask(id, key, cancels)] + ([Lookup(id)] + ([Claim(id, false)] + [])),
           Told(Stored(AppendedUnder(s, key, cancels), key, outcome), key, outcome))
  {
    var outcome := Accepted(|s.stream|);
    var end := Told(Stored(AppendedUnder(s, key, cancels), key, outcome), key, outcome);
    var asked := Perform(s, Ask(id, key, cancels));
    var missed := Perform(asked, Lookup(id));
    assert Perform(missed, Claim(id, false)).requests == s.requests;
    RunsOn(missed, Claim(id, false), [], end);
    RunsOn(asked, Lookup(id), [Claim(id, false)] + [], end);
    RunsOn(s, Ask(id, key, cancels), [Lookup(id)] + ([Claim(id, false)] + []), end);
  }

  /** An order refused on a free key is rejected for that reason: the rejection is stored and told, and nothing is
      appended. */
  lemma RefusalIsTold(s: System, id: nat, key: Key, reason: int)
    requires id !in s.requests && key !in s.outcomes
    ensures Runs(s, [Ask(id, key, false)] + ([Lookup(id)] + ([Refuse(id, reason)] + ([SetIfAbsent(id)] + []))),
                 Told(Stored(s, key, Rejected(reason)), key, Rejected(reason)))
  {
    var end := Told(Stored(s, key, Rejected(reason)), key, Rejected(reason));
    var asked := Perform(s, Ask(id, key, false));
    var missed := Perform(asked, Lookup(id));
    var refused := Perform(missed, Refuse(id, reason));
    assert Perform(refused, SetIfAbsent(id)).requests == s.requests;
    RunsOn(refused, SetIfAbsent(id), [], end);
    RunsOn(missed, Refuse(id, reason), [SetIfAbsent(id)] + [], end);
    RunsOn(asked, Lookup(id), [Refuse(id, reason)] + ([SetIfAbsent(id)] + []), end);
    RunsOn(s, Ask(id, key, false), [Lookup(id)] + ([Refuse(id, reason)] + ([SetIfAbsent(id)] + [])), end);
  }

  /** A refusal that finds the key taken is told the outcome that took it. */
  lemma LateRefusalIsTold(s: System, id: nat)
    requires id in s.requests && s.requests[id].phase.Rejecting? && s.requests[id].key in s.outcomes
    ensures var key := s.requests[id].key;
      Runs(s, [SetIfAbsent(id)] + ([Refetch(id)] + []),
           Told(s.(requests := s.requests - {id}), key, s.outcomes[key]))
  {
    var key := s.requests[id].key;
    var end := Told(s.(requests := s.requests - {id}), key, s.outcomes[key]);
    var refetching := Perform(s, SetIfAbsent(id));
    assert Perform(refetching, Refetch(id)).requests == s.requests - {id};
    RunsOn(refetching, Refetch(id), [], end);
    RunsOn(s, SetIfAbsent(id), [Refetch(id)] + [], end);
  }

  // ---- the store as an object --------------------------------------------------------------------

  class OutcomeStore {
    var outcomes: map<Key, Outcome>
    var stream: seq<Entry>

    constructor ()
      ensures outcomes == map[] && stream == []
    {
      outcomes, stream := map[], [];
    }

    /** `claim_and_append`; `appended` is false for a duplicate, whose stored outcome is returned. */
    method ClaimAndAppend(key: Key, cancels: bool) returns (appended: bool, outcome: Outcome)
      modifies this
      ensures appended == (key !in old(outcomes))
      ensures outcomes == old(outcomes)[key := outcome]
      ensures appended ==> outcome == Accepted(old(|stream|)) && stream == old(stream) + [Keyed(key, cancels)]
      ensures !appended ==> outcome == old(outcomes)[key] && stream == old(stream) && outcomes == old(outcomes)
    {
      if key in outcomes {
        return false, outcomes[key];
      }
      outcome := Accepted(|stream|);
      stream := stream + [Keyed(key, cancels)];
      outcomes := outcomes[key := outcome];
      return true, outcome;
    }

    /** `record_rejected`: an outcome already stored wins and is the one returned. */
    method RecordRejected(key: Key, reason: int) returns (outcome: Outcome)
      modifies this`outcomes
      ensures key in outcomes && outcomes[key] == outcome && Keeps(old(outcomes), outcomes)
      ensures outcomes == old(outcomes)[key := if key in old(outcomes) then old(outcomes)[key] else Rejected(reason)]
    {
      if key !in outcomes {
        outcomes := outcomes[key := Rejected(reason)];
      }
      outcome := outcomes[key];
    }
  }
}
