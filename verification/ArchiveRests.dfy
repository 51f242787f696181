/** An archiver that is restarted and then left alone comes to rest: it reads everything, writes every finished
    unit and moves its bookmark. */
module ArchiveRests {
  import opened Contracts
  import opened ArchiveModel
  import opened ArchiveSteps
  import opened ArchiveRuns
  import opened ArchiveHistory

  /** These events lead from `s` to `t`, and no write among them fails. */
  ghost predicate Quietly(c: Config, s: System, events: seq<Event>, t: System) {
    StateFrom(c, s, events) == Some(t) && NoWriteFails(events)
  }

  lemma QuietlyOn(c: Config, s: System, a: seq<Event>, t: System, b: seq<Event>, u: System)
    requires Quietly(c, s, a, t) && Quietly(c, t, b, u)
    ensures Quietly(c, s, a + b, u)
  {
    hide StateFrom;
    FromThere(c, s, a, t, b);
  }

  lemma OneQuietly(c: Config, s: System, e: Event)
    requires Typed(c, s) && Enabled(c, s, e) && !e.WriteFails?
    ensures Quietly(c, s, [e], Perform(c, s, e))
  {
    hide StateFrom, Typed, Enabled, Perform;
    StartsFrom(c, s);
    OneMoreEvent(c, s, [], e, s);
    assert [] + [e] == [e];
  }

  /** A process with nothing in its hands. */
  ghost predicate Free(s: System) {
    s.proc.Some? && s.proc.value.writing == None
  }

  lemma ApplyOneMore(c: Config, s: System)
    requires Inv(c, s) && Free(s) && s.proc.value.at < |s.recs|
    ensures Typed(c, s) && Enabled(c, s, ApplyNext(false))
    ensures var t := Perform(c, s, ApplyNext(false));
      && Inv(c, t) && Free(t) && t.recs == s.recs && t.disk == s.disk
      && t.proc.value.at == s.proc.value.at + 1 && t.proc.value.from == s.proc.value.from
  {
    hide ProcessSound, DiskRight, Numbered, InTime, Boundary, ApplyRec;
    EventKeeps(c, s, ApplyNext(false));
  }

  lemma {:induction false} AppliesAll(c: Config, s: System) returns (events: seq<Event>, t: System)
    requires Inv(c, s) && Free(s) && s.proc.value.at <= |s.recs|
    ensures Quietly(c, s, events, t) && Inv(c, t) && Free(t) && t.recs == s.recs && t.disk == s.disk
    ensures t.proc.value.at == |s.recs| && t.proc.value.from == s.proc.value.from
    decreases |s.recs| - s.proc.value.at
  {
    hide Inv, Typed, Enabled, Perform, Quietly;
    if s.proc.value.at == |s.recs| {
      StaysQuiet(c, s);
      events, t := [], s;
    } else {
      ApplyOneMore(c, s);
      OneQuietly(c, s, ApplyNext(false));
      var next := Perform(c, s, ApplyNext(false));
      var rest;
      rest, t := AppliesAll(c, next);
      QuietlyOn(c, s, [ApplyNext(false)], next, rest, t);
      events := [ApplyNext(false)] + rest;
    }
  }

  lemma StaysQuiet(c: Config, s: System)
    ensures Quietly(c, s, [], s)
  {
  }

  /** Some drained files have been written, all of them, and then the bookmark is. */
  lemma WritesAll(c: Config, s: System) returns (events: seq<Event>, t: System)
    requires Inv(c, s) && Free(s) && s.proc.value.state.ready != []
    ensures Quietly(c, s, events, t) && Free(t) && t.recs == s.recs && t.proc.value.state.ready == []
    ensures t.proc.value.at == s.proc.value.at && t.proc.value.from == s.proc.value.from
  {
    hide Inv, Quietly, AllFilesOf, ApplyRec, Allowed, Checkpoint, StateFrom;
    SoundIsTyped(c, s);
    OneQuietly(c, s, Drain);
    var drained := Perform(c, s, Drain);
    var files := AllFilesOf(s.proc.value.state.ready);
    var writes := WriteSome(c, drained, files, files.Keys);
    var written := Wrote(drained, files.Keys);
    WritesQuietly(c, drained, writes, written);
    assert files - files.Keys == map[];
    OneQuietly(c, written, Mark);
    t := Perform(c, written, Mark);
    QuietlyOn(c, s, [Drain], drained, writes, written);
    QuietlyOn(c, s, [Drain] + writes, written, [Mark], t);
    events := [Drain] + writes + [Mark];
  }

  lemma WritesQuietly(c: Config, s: System, writes: seq<Event>, t: System)
    requires StateFrom(c, s, writes) == Some(t) && forall i :: 0 <= i < |writes| ==> writes[i].WriteFile?
    ensures Quietly(c, s, writes, t)
  {
    hide StateFrom;
  }

  lemma Restarted(c: Config, s: System)
    requires Inv(c, s) && s.recs != []
    ensures Typed(c, s) && Enabled(c, s, Crash)
    ensures Typed(c, Perform(c, s, Crash)) && Enabled(c, Perform(c, s, Crash), Resume)
    ensures var t := Perform(c, Perform(c, s, Crash), Resume);
      && Inv(c, t) && Free(t) && t.recs == s.recs && t.disk == s.disk
      && t.proc.value.from == t.proc.value.at < |t.recs|
  {
    hide DiskRight, Numbered, InTime, Working, Checkpoint, ApplyRec;
    EventKeeps(c, s, Crash);
    EventKeeps(c, Perform(c, s, Crash), Resume);
  }

  /** From any reachable state that has a record, a crash and a restart that is left alone end idle, with no write
      failed; what the archive then holds, `CrashesLeaveNoTrace` says. */
  lemma ComesToRest(c: Config, past: seq<Event>, s: System) returns (events: seq<Event>, t: System)
    requires Reaches(c, past, s) && s.recs != []
    ensures Quietly(c, s, [Crash, Resume] + events, t) && Idle(t) && t.recs == s.recs
  {
    hide Inv, Typed, Enabled, Perform, Quietly;
    ReachableIsSound(c, past, s);
    Restarted(c, s);
    var down := Perform(c, s, Crash);
    var up := Perform(c, down, Resume);
    OneQuietly(c, s, Crash);
    OneQuietly(c, down, Resume);
    QuietlyOn(c, s, [Crash], down, [Resume], up);
    assert [Crash] + [Resume] == [Crash, Resume];
    var applies, applied := AppliesAll(c, up);
    QuietlyOn(c, s, [Crash, Resume], up, applies, applied);
    if applied.proc.value.state.ready == [] {
      events, t := applies, applied;
    } else {
      var writes;
      writes, t := WritesAll(c, applied);
      QuietlyOn(c, s, [Crash, Resume] + applies, applied, writes, t);
      assert [Crash, Resume] + applies + writes == [Crash, Resume] + (applies + writes);
      events := applies + writes;
    }
  }
}
