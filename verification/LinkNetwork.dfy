/** Everything the network and the system may do keeps the invariant: send, handle, answer, lose, relaunch. */
module LinkNetwork {
  import opened Basics
  import opened Commands
  import opened TripServer
  import opened OutboxModel
  import opened CommandFold
  import opened TripViews
  import opened Link
  import opened LinkMirror
  import opened LinkSubmit
  import opened LinkGiveUp

  // ---- changes of bookkeeping only ---------------------------------------------------------------

  /** A step that changes no command and no server state keeps what depends on them. */
  lemma Bookkeeping(l: Link, l': Link)
    requires Inv(l)
    requires Mirrors(l.outbox.entries, l'.outbox.entries) && Cmds(l'.outbox.entries) == Cmds(l.outbox.entries)
    requires l' == l.(outbox := l'.outbox, air := l'.air, orphans := l'.orphans, interrupted := l'.interrupted)
    requires l'.outbox == l.outbox.(entries := l'.outbox.entries, paused := l'.outbox.paused)
    requires l.interrupted <= l'.interrupted
    requires FlightInv(l') && OrphansInv(l')
    requires forall j, k :: 0 <= j < |l.outbox.entries| && IsCreateOf(l.outbox.entries[j].command, k) && k !in l.late ==>
               Excused(l', l'.outbox.entries[j], k)
    ensures Inv(l')
  {
    hide Converges, IdsAgree, TripInv, Loose, Stranded, FlightInv, OrphansInv, ServerInv;
    var es, es' := l.outbox.entries, l'.outbox.entries;
    forall e' | e' in es' ensures e'.id < l'.outbox.nextId && CommandOk(l.claims, l.samples, e'.command) {
      var j :| 0 <= j < |es'| && es'[j] == e';
      assert es[j] in es && Cmds(es')[j] == Cmds(es)[j];
    }
    forall k ensures KeyInv(l', k) {
      if k in l.late {
        LooseOf(l, k);
        MirrorLoose(l, l', k);
      } else if k in l.abandoned {
        StrandedOf(l, k);
        MirrorStranded(l, l', k);
      } else {
        KeyOf(l, k);
        SameCommands(l, l', k);
        MirrorIds(l, l', k);
        MirrorTrip(l, l', k);
      }
    }
  }

  /** No forgotten request is affected when no create is made to look untried. */
  lemma SameOrphans(l: Link, l': Link)
    requires Inv(l) && Mirrors(l.outbox.entries, l'.outbox.entries)
    requires l'.server == l.server && l'.orphans == l.orphans && l'.claims == l.claims && l'.samples == l.samples
    requires l'.outbox.nextId == l.outbox.nextId && l.interrupted <= l'.interrupted
    requires forall j :: 0 <= j < |l.outbox.entries| && l.outbox.entries[j].failures > 0 ==>
               l'.outbox.entries[j].failures > 0
    ensures OrphansInv(l')
  {
    hide KeyInv, FlightInv, ServerInv, QueueInv, OrphanOk, CommandOk;
    forall o | o in l'.orphans ensures OrphanOk(l', o) {
      OrphanIsOk(l, o);
      MirrorOrphans(l, l', o);
    }
  }

  lemma OrphanIsOk(l: Link, o: Orphan)
    requires Inv(l) && o in l.orphans
    ensures OrphanOk(l, o) && CommandOk(l.claims, l.samples, o.command)
  {
    hide KeyInv, FlightInv, ServerInv, QueueInv;
  }

  /** A request on its way is one of its trip. */
  lemma RequestIsOwn(l: Link, e: Entry, r: Request)
    requires Inv(l) && e in l.outbox.entries && Resolve(l.outbox.tripIds, e.command) == Some(r)
    ensures RequestOf(l.server, r, e.command, e.command.TripKeyOf().value)
  {
    hide Inv, OwnId;
    EntryOf(l, e);
    var k := e.command.TripKeyOf().value;
    if k in l.outbox.tripIds {
      IdIsOwn(l, k);
    }
  }

  lemma HeadsAreHeads(es: seq<Entry>, i: nat)
    requires Sorted(es) && i < |es|
    ensures Heads(es, i) <==> IsHead(es, es[i])
    ensures !HeldBack(es, i) && es[i].command.DeleteTrip? ==> Alone(es, es[i], es[i].command.key)
    ensures Heads(es, i) && !HeldBack(es, i) ==> Foremost(es, es[i])
  {
    if Heads(es, i) {
      forall o | o in es && o.id < es[i].id ensures o.command.LaneOf() != es[i].command.LaneOf() {
        var j :| 0 <= j < |es| && es[j] == o;
      }
    }
    if IsHead(es, es[i]) {
      forall j | 0 <= j < i ensures es[j].command.LaneOf() != es[i].command.LaneOf() {
        assert es[j] in es && es[j].id < es[i].id;
      }
    }
    if !HeldBack(es, i) && es[i].command.DeleteTrip? {
      forall o | o in es && o.id != es[i].id ensures !o.command.Of(es[i].command.key) {
        var j :| 0 <= j < |es| && es[j] == o;
      }
    }
  }

  lemma SendFlightOf(l: Link, now: Time, i: nat, j: nat)
    requires Inv(l) && !l.outbox.paused && i < |l.outbox.entries| && i == FirstReady(l.outbox, now, 0)
    requires j < |l.outbox.entries|
    ensures FlightOf(Send(l, now), Send(l, now).outbox.entries[j])
  {
    hide ServerInv, Converges, IdsAgree, TripInv;
    var l' := Send(l, now);
    var es, es' := l.outbox.entries, l'.outbox.entries;
    HeadsAreHeads(es, i);
    assert es[i] in es && FlightOf(l, es[i]);
    assert es[j] in es && FlightOf(l, es[j]);
    if j == i {
      MirrorPlace(es, es', es[i], es'[i]);
    } else {
      MirrorFlightOf(l, l', es[j], es'[j]);
    }
  }

  lemma SendFlight(l: Link, now: Time, i: nat)
    requires Inv(l) && !l.outbox.paused && i < |l.outbox.entries| && i == FirstReady(l.outbox, now, 0)
    ensures FlightInv(Send(l, now))
  {
    hide ServerInv, Converges, IdsAgree, TripInv, FlightOf;
    var l' := Send(l, now);
    var es, es' := l.outbox.entries, l'.outbox.entries;
    HeadsAreHeads(es, i);
    forall e' | e' in es' ensures FlightOf(l', e') {
      var j :| 0 <= j < |es| && es'[j] == e';
      SendFlightOf(l, now, i, j);
    }
    forall id | id in l'.air ensures exists e' :: e' in es' && e'.id == id {
      if id == es[i].id {
        assert es'[i] in es';
      } else {
        var e :| e in es && e.id == id;
        var e' := Image(es, es', e);
      }
    }
  }

  lemma SendExcuses(l: Link, now: Time, i: nat, j: nat, k: TripKey)
    requires Sorted(l.outbox.entries) && !l.outbox.paused
    requires i < |l.outbox.entries| && i == FirstReady(l.outbox, now, 0) && j < |l.outbox.entries|
    requires l.outbox.entries[i].id !in l.air
    requires IsCreateOf(l.outbox.entries[j].command, k) && Excused(l, l.outbox.entries[j], k)
    ensures Excused(Send(l, now), Send(l, now).outbox.entries[j], k)
  {
  }

  lemma SendKeepsInv(l: Link, now: Time)
    requires Inv(l)
    ensures Inv(Send(l, now))
  {
    hide Inv, FlightInv, OrphansInv, Foremost, Answered, Resolve, Heads, HeldBack, FirstReady, TripOf, RowsOf, CreateLeads;
    var l' := Send(l, now);
    var i := FirstReady(l.outbox, now, 0);
    var es := l.outbox.entries;
    if !l.outbox.paused && i < |es| {
      SendFlight(l, now, i);
      EntriesSorted(l);
      EntryOf(l, es[i]);
      forall j, k | 0 <= j < |es| && IsCreateOf(es[j].command, k) && k !in l.late
        ensures Excused(l', l'.outbox.entries[j], k)
      {
        CreateIsOf(l, es[j], k);
        SendExcuses(l, now, i, j, k);
      }
      assert Cmds(l'.outbox.entries) == Cmds(es);
      SameOrphans(l, l');
      Bookkeeping(l, l');
    }
  }

  lemma RestartOrphans(l: Link)
    requires Inv(l)
    ensures OrphansInv(Restart(l))
  {
    hide KeyInv, ServerInv, RequestOf, CommandOk, Landed, ReplyOf, Foremost;
    var l' := Restart(l);
    forall o | o in l'.orphans ensures OrphanOk(l', o) {
      if o in l.orphans {
        OrphanIsOk(l, o);
        MirrorOrphans(l, l', o);
      } else {
        var e :| e in l.outbox.entries && e.id in l.air && o == Orphan(e.id, e.command, l.air[e.id].request);
        EntryOf(l, e);
        RequestIsOwn(l, e, o.request);
        assert e.command.CreateTrip? ==> e.command.key in CreatesOnTheWay(l.outbox.entries);
      }
    }
  }

  lemma RestartKeepsInv(l: Link)
    requires Inv(l)
    ensures Inv(Restart(l))
  {
    hide Converges, IdsAgree, Loose, Landed, ReplyOf, Unanswered;
    var l' := Restart(l);
    var es, es' := l.outbox.entries, l'.outbox.entries;
    MirrorFlight(l, l');
    forall j, k | 0 <= j < |es| && IsCreateOf(es[j].command, k) && k !in l.late ensures Excused(l', es'[j], k) {
      assert es[j] in es && FlightOf(l, es[j]);
      CreateIsOf(l, es[j], k);
    }
    RestartOrphans(l);
    Bookkeeping(l, l');
  }

  /** Lifting delays and pausing or resuming. */
  lemma UnchangedKeepsInv(l: Link, l': Link)
    requires Inv(l) && |l'.outbox.entries| == |l.outbox.entries|
    requires l' == l.(outbox := l.outbox.(entries := l'.outbox.entries, paused := l'.outbox.paused))
    requires forall j :: 0 <= j < |l.outbox.entries| ==>
               l'.outbox.entries[j] == l.outbox.entries[j]
               || l'.outbox.entries[j] == l.outbox.entries[j].(notBefore := None)
    ensures Inv(l')
  {
    hide Converges, IdsAgree, Loose, Landed, ReplyOf;
    var es, es' := l.outbox.entries, l'.outbox.entries;
    forall j | 0 <= j < |es| ensures StillInFlight(l, l', es[j], es'[j]) {
      assert es[j] in es && FlightOf(l, es[j]);
    }
    MirrorFlight(l, l');
    forall j, k | 0 <= j < |es| && IsCreateOf(es[j].command, k) && k !in l.late ensures Excused(l', es'[j], k) {
      assert es[j] in es;
      CreateIsOf(l, es[j], k);
    }
    SameOrphans(l, l');
    Bookkeeping(l, l');
  }

  lemma ExpediteKeepsInv(l: Link)
    requires Inv(l)
    ensures Inv(l.(outbox := Expedite(l.outbox)))
  {
    UnchangedKeepsInv(l, l.(outbox := Expedite(l.outbox)));
  }

  lemma ResumeKeepsInv(l: Link)
    requires Inv(l)
    ensures Inv(l.(outbox := Resume(l.outbox)))
  {
    UnchangedKeepsInv(l, l.(outbox := Resume(l.outbox)));
  }

  function Lettered(l: Link, letters: seq<DeadLetter>): Link {
    l.(outbox := l.outbox.(deadLetters := letters))
  }

  /** Nothing depends on the dead letters. */
  lemma LettersKeepInv(l: Link, letters: seq<DeadLetter>)
    requires Inv(l) && LettersAbandoned(letters, l.abandoned + l.late)
    ensures Inv(Lettered(l, letters))
  {
    hide Fold, Chain, Landed, ReplyOf, ServerInv, RequestOf;
    var l' := Lettered(l, letters);
    forall e | e in l'.outbox.entries ensures FlightOf(l', e) {
      assert FlightOf(l, e);
    }
    forall o | o in l'.orphans ensures OrphanOk(l', o) {
      assert OrphanOk(l, o);
    }
    forall k ensures KeyInv(l', k) {
      LettersKeepKey(l, l', k);
    }
  }

  lemma LettersKeepKey(l: Link, l': Link, k: TripKey)
    requires l' == l.(outbox := l.outbox.(deadLetters := l'.outbox.deadLetters)) && KeyInv(l, k)
    ensures KeyInv(l', k)
  {
    hide Fold, Chain, TripOf, RowsOf;
    if k !in l.late && k !in l.abandoned {
      assert forall e: Entry :: IsCreateOf(e.command, k) && CreateOf(l, e, k) ==> CreateOf(l', e, k);
      assert forall e: Entry :: DeleteOf(l, e, k) ==> DeleteOf(l', e, k);
    }
  }

  lemma ClearKeepsInv(l: Link)
    requires Inv(l)
    ensures Inv(l.(outbox := ClearDeadLetters(l.outbox)))
  {
    LettersKeepInv(l, []);
  }

  // ---- an answer that keeps the entry ------------------------------------------------------------

  lemma InTheAir(l: Link, id: nat) returns (i: nat)
    requires Inv(l) && id in l.air
    ensures i < |l.outbox.entries| && i == IndexOf(l.outbox.entries, id) && l.outbox.entries[i].id == id
    ensures l.outbox.entries[i].inFlight && FlightOf(l, l.outbox.entries[i])
  {
    i := IndexOf(l.outbox.entries, id);
    assert l.outbox.entries[i] in l.outbox.entries by {
      var e :| e in l.outbox.entries && e.id == id;
      var j :| 0 <= j < |l.outbox.entries| && l.outbox.entries[j] == e;
    }
  }

  function PutBack(l: Link, id: nat, i: nat, e': Entry, paused: bool, orphans: set<Orphan>): Link
    requires i < |l.outbox.entries|
  {
    l.(outbox := l.outbox.(entries := l.outbox.entries[i := e'], paused := paused), air := l.air - {id}, orphans := orphans)
  }

  /** The request in the air of entry `i`, put back to wait, may become a forgotten one unless it is a create that does not
      look tried. */
  ghost predicate MayForget(l: Link, id: nat, i: nat, e': Entry, orphans: set<Orphan>)
    requires i < |l.outbox.entries| && id in l.air
  {
    forall o :: o in orphans ==>
      o in l.orphans
      || (o == Orphan(id, l.outbox.entries[i].command, l.air[id].request) && (o.command.CreateTrip? ==> e'.failures > 0))
  }

  lemma PutBackFlight(l: Link, l': Link, id: nat, i: nat, e': Entry, paused: bool, orphans: set<Orphan>)
    requires Inv(l) && id in l.air && i < |l.outbox.entries| && l.outbox.entries[i].id == id
    requires e' == l.outbox.entries[i].(inFlight := false, failures := e'.failures, notBefore := e'.notBefore)
    requires l' == PutBack(l, id, i, e', paused, orphans)
    ensures FlightInv(l') && Mirrors(l.outbox.entries, l'.outbox.entries)
  {
    hide ServerInv, KeyInv, Landed, ReplyOf, Foremost, Resolve;
    var es, es' := l.outbox.entries, l'.outbox.entries;
    EntryOf(l, es[i]);
    forall j | 0 <= j < |es| ensures StillInFlight(l, l', es[j], es'[j]) {
      EntryOf(l, es[j]);
    }
    MirrorFlight(l, l');
  }

  lemma PutBackOrphans(l: Link, l': Link, id: nat, i: nat, e': Entry, paused: bool, orphans: set<Orphan>)
    requires Inv(l) && id in l.air && i < |l.outbox.entries| && l.outbox.entries[i].id == id
    requires e' == l.outbox.entries[i].(inFlight := false, failures := e'.failures, notBefore := e'.notBefore)
    requires e'.failures >= l.outbox.entries[i].failures && MayForget(l, id, i, e', orphans)
    requires l' == PutBack(l, id, i, e', paused, orphans) && Mirrors(l.outbox.entries, l'.outbox.entries)
    ensures OrphansInv(l')
  {
    hide ServerInv, KeyInv, Landed, ReplyOf, Foremost, Resolve, RequestOf, CommandOk;
    var es, es' := l.outbox.entries, l'.outbox.entries;
    EntryOf(l, es[i]);
    EntriesSorted(l);
    forall o | o in l'.orphans ensures OrphanOk(l', o) {
      if o in l.orphans {
        OrphanIsOk(l, o);
        MirrorOrphans(l, l', o);
      } else {
        RequestIsOwn(l, es[i], o.request);
        forall x | x in es' && x.id == o.id ensures x == e' {
          var j :| 0 <= j < |es'| && es'[j] == x;
          assert es[j].id == es[i].id;
        }
      }
    }
  }

  lemma PutBackKeepsInv(l: Link, l': Link, id: nat, i: nat, e': Entry, paused: bool, orphans: set<Orphan>)
    requires Inv(l) && id in l.air && i < |l.outbox.entries| && l.outbox.entries[i].id == id
    requires e' == l.outbox.entries[i].(inFlight := false, failures := e'.failures, notBefore := e'.notBefore)
    requires e'.failures > 0 || (e' == l.outbox.entries[i].(inFlight := false) && l.air[id].reply.None?)
    requires e'.failures >= l.outbox.entries[i].failures && MayForget(l, id, i, e', orphans)
    requires l' == PutBack(l, id, i, e', paused, orphans)
    ensures Inv(l')
  {
    hide Inv, Converges, IdsAgree, FlightInv, OrphansInv, Landed, IsHead, Alone, MayForget;
    var es, es' := l.outbox.entries, l'.outbox.entries;
    EntryOf(l, es[i]);
    EntriesSorted(l);
    PutBackFlight(l, l', id, i, e', paused, orphans);
    PutBackOrphans(l, l', id, i, e', paused, orphans);
    forall j, k | 0 <= j < |es| && IsCreateOf(es[j].command, k) && k !in l.late ensures Excused(l', es'[j], k) {
      assert es[j] in es;
      CreateIsOf(l, es[j], k);
    }
    assert Cmds(es') == Cmds(es);
    Bookkeeping(l, l');
  }

  // ---- an answer that removes the entry ----------------------------------------------------------

  lemma RemovedMembers(es: seq<Entry>, i: nat)
    requires Sorted(es) && i < |es|
    ensures forall e :: e in RemoveAt(es, i) <==> e in es && e.id != es[i].id
  {
    forall e ensures e in RemoveAt(es, i) <==> e in es && e.id != es[i].id {
      if e in es && e.id != es[i].id {
        var j :| 0 <= j < |es| && es[j] == e;
        assert RemoveAt(es, i)[if j < i then j else j - 1] == e;
      }
    }
  }

  lemma RemovedSorted(es: seq<Entry>, i: nat)
    requires Sorted(es) && i < |es|
    ensures Sorted(RemoveAt(es, i))
  {
  }

  lemma RemovedCmds(es: seq<Entry>, i: nat)
    requires i < |es|
    ensures Cmds(RemoveAt(es, i)) == Cmds(es)[..i] + Cmds(es)[i + 1..]
  {
  }

  lemma Removed(es: seq<Entry>, i: nat)
    requires Sorted(es) && i < |es|
    ensures Sorted(RemoveAt(es, i))
    ensures forall e :: e in RemoveAt(es, i) <==> e in es && e.id != es[i].id
    ensures Cmds(RemoveAt(es, i)) == Cmds(es)[..i] + Cmds(es)[i + 1..]
  {
    hide Sorted, RemoveAt, Cmds;
    RemovedMembers(es, i);
    RemovedSorted(es, i);
    RemovedCmds(es, i);
  }

  /** The entry comes first of its trip's lane, and the trip is one whose record the queue still converges to. */
  ghost predicate Leading(l: Link, i: nat, k: TripKey) {
    && i < |l.outbox.entries| && l.outbox.entries[i].command.Of(k)
    && Foremost(l.outbox.entries, l.outbox.entries[i]) && k !in l.abandoned && k !in l.late
  }

  /** Every earlier command of the queue leaves what the entry writes alone. */
  lemma BeforeHead(l: Link, i: nat, k: TripKey)
    requires Inv(l) && Leading(l, i, k)
    ensures var es := l.outbox.entries;
            && (!es[i].command.UploadGps? ==> forall j :: 0 <= j < i ==> Inert(TripWriter(k), es[j].command))
            && (es[i].command.UploadGps? || es[i].command.DeleteTrip? ==>
                  forall j :: 0 <= j < i ==> Inert(RowWriter(k, Shared(l.samples)), es[j].command))
  {
    hide Inv, Inert;
    var es := l.outbox.entries;
    EntriesSorted(l);
    assert es[i] in es;
    forall j | 0 <= j < i
      ensures !es[i].command.UploadGps? ==> Inert(TripWriter(k), es[j].command)
      ensures es[i].command.UploadGps? || es[i].command.DeleteTrip? ==>
                Inert(RowWriter(k, Shared(l.samples)), es[j].command)
    {
      assert es[j] in es && es[j].id < es[i].id;
      assert es[j].command != DeleteTrip(k) by {
        if es[j].command == DeleteTrip(k) {
          DeleteIsLast(l, es[j], k);
        }
      }
      OtherwiseInert(es[j].command, k);
      OtherwiseNoRows(es[j].command, k, Shared(l.samples));
    }
  }

  lemma LandedIsIdentity(l: Link, i: nat, k: TripKey, reply: Reply)
    requires Inv(l) && i < |l.outbox.entries|
    requires l.outbox.entries[i].command.Of(k) ==>
               Leading(l, i, k) && Landed(l.server, l.outbox.entries[i].command, reply, Shared(l.samples))
    ensures var cs := Cmds(l.outbox.entries);
            var shared := Shared(l.samples);
            && WriteTrip(Fold(TripWriter(k), TripOf(l.server, k), cs[..i]), cs[i], k)
               == Fold(TripWriter(k), TripOf(l.server, k), cs[..i])
            && WriteRows(Fold(RowWriter(k, shared), OwnRows(l.server, k, shared), cs[..i]), cs[i], k, shared)
               == Fold(RowWriter(k, shared), OwnRows(l.server, k, shared), cs[..i])
  {
    var cs := Cmds(l.outbox.entries);
    if cs[i].Of(k) {
      BeforeHead(l, i, k);
      hide Inv;
      if !cs[i].UploadGps? {
        FoldInert(TripWriter(k), TripOf(l.server, k), cs[..i]);
      }
      if cs[i].UploadGps? || cs[i].DeleteTrip? {
        FoldInert(RowWriter(k, Shared(l.samples)), OwnRows(l.server, k, Shared(l.samples)), cs[..i]);
      }
    }
  }

  /** Removing an entry whose command the server holds; `ids` is the id table afterwards. */
  function Drop(l: Link, i: nat, ids: map<TripKey, int>): Link
    requires i < |l.outbox.entries|
  {
    l.(outbox := l.outbox.(entries := RemoveAt(l.outbox.entries, i), tripIds := ids),
       air := l.air - {l.outbox.entries[i].id})
  }

  ghost predicate MayDrop(l: Link, i: nat) {
    && i < |l.outbox.entries|
    && var e := l.outbox.entries[i];
       && e.inFlight && e.id in l.air && l.air[e.id].reply.Some?
       && Answered(l, e.command, l.air[e.id].reply.value)
  }

  /** The id table after an entry is done: a create adds its id, a delete takes it away. */
  function IdsAfter(ids: map<TripKey, int>, c: Command, reply: Reply): map<TripKey, int> {
    if c.CreateTrip? && reply.Created? then ids[c.key := reply.id]
    else if c.DeleteTrip? then ids - {c.key}
    else ids
  }

  lemma DropConverges(l: Link, i: nat, ids: map<TripKey, int>, k: TripKey)
    requires Inv(l) && MayDrop(l, i) && k !in l.abandoned && k !in l.late
    ensures Converges(Drop(l, i, ids), k)
  {
    hide Inv, Landed, ReplyOf, OwnRows, TripOf, Fold, Chain;
    var cs := Cmds(l.outbox.entries);
    KeyOf(l, k);
    EntriesSorted(l);
    Removed(l.outbox.entries, i);
    EntryOf(l, l.outbox.entries[i]);
    LandedIsIdentity(l, i, k, l.air[l.outbox.entries[i].id].reply.value);
    FoldWithout(TripWriter(k), TripOf(l.server, k), cs, i);
    ChainWithout(TripWriter(k), Fitting(k), TripOf(l.server, k), cs, i);
    FoldWithout(RowWriter(k, Shared(l.samples)), OwnRows(l.server, k, Shared(l.samples)), cs, i);
  }

  ghost function Dropped(l: Link, i: nat): Link
    requires MayDrop(l, i)
  {
    var e := l.outbox.entries[i];
    Drop(l, i, IdsAfter(l.outbox.tripIds, e.command, l.air[e.id].reply.value))
  }

  lemma ResolveKept(ids: map<TripKey, int>, ids': map<TripKey, int>, c: Command)
    requires forall k :: c.Of(k) ==> (k in ids <==> k in ids') && (k in ids ==> ids[k] == ids'[k])
    ensures Resolve(ids', c) == Resolve(ids, c)
  {
    var owner := c.TripKeyOf();
    assert owner.Some? ==> c.Of(owner.value);
  }

  /** Next to an entry that is done, the other entries of its trip were not tried, or keep the id they resolve to. */
  lemma OtherResolves(l: Link, i: nat, e: Entry)
    requires MayDrop(l, i) && e in l.outbox.entries && e.id != l.outbox.entries[i].id
    requires FlightOf(l, l.outbox.entries[i]) && FlightOf(l, e)
    requires l.outbox.entries[i].command.CreateTrip? ==>
               && l.outbox.entries[i].command.key !in l.outbox.tripIds
               && CreateLeads(l.outbox.entries, l.outbox.entries[i], l.outbox.entries[i].command.key)
    ensures Tried(e) ==> Resolve(Dropped(l, i).outbox.tripIds, e.command) == Resolve(l.outbox.tripIds, e.command)
  {
    hide Answered, IsHead;
    var c := l.outbox.entries[i].command;
    assert c.CreateTrip? && e.command.Of(c.key) ==> !e.command.CreateTrip?;
    if Tried(e) && !(c.CreateTrip? && e.command.Of(c.key)) {
      ResolveKept(l.outbox.tripIds, Dropped(l, i).outbox.tripIds, e.command);
    }
  }

  lemma DropFlightOf(l: Link, i: nat, e: Entry)
    requires Sorted(l.outbox.entries) && MayDrop(l, i) && e in Dropped(l, i).outbox.entries
    requires FlightOf(l, l.outbox.entries[i]) && FlightOf(l, e)
    requires l.outbox.entries[i].command.CreateTrip? ==>
               && l.outbox.entries[i].command.key !in l.outbox.tripIds
               && CreateLeads(l.outbox.entries, l.outbox.entries[i], l.outbox.entries[i].command.key)
    ensures FlightOf(Dropped(l, i), e)
  {
    hide Sorted, RemoveAt, Foremost, Resolve, Landed, ReplyOf, CreateLeads, IdsAfter;
    var es := l.outbox.entries;
    Removed(es, i);
    StaysAhead(es, RemoveAt(es, i), e);
    OtherResolves(l, i, e);
  }

  lemma DropFlight(l: Link, i: nat)
    requires Inv(l) && MayDrop(l, i)
    ensures FlightInv(Dropped(l, i))
  {
    hide ServerInv, KeyInv, Landed, ReplyOf;
    var es := l.outbox.entries;
    var l' := Dropped(l, i);
    Removed(es, i);
    var c := es[i].command;
    if c.CreateTrip? {
      assert es[i] in es;
      CreateIsFirst(l, es[i], c.key);
    }
    forall e | e in l'.outbox.entries ensures FlightOf(l', e) {
      assert FlightOf(l, e) && es[i] in es && FlightOf(l, es[i]);
      DropFlightOf(l, i, e);
    }
    forall id | id in l'.air ensures exists e :: e in l'.outbox.entries && e.id == id {
      var e :| e in es && e.id == id;
      assert e in l'.outbox.entries;
    }
  }

  lemma DropIdsOther(l: Link, i: nat, k: TripKey)
    requires Inv(l) && MayDrop(l, i) && !l.outbox.entries[i].command.Of(k) && k !in l.abandoned && k !in l.late
    ensures IdsAgree(Dropped(l, i), k)
  {
    hide ServerInv, Converges, TripInv, FlightInv;
    var es := l.outbox.entries;
    var es' := Dropped(l, i).outbox.entries;
    Removed(es, i);
    KeyOf(l, k);
    forall o | o in es && o.command.Of(k) ensures o in es' {
      assert o.id != es[i].id by { if o.id == es[i].id { SortedIds(es, i, o); } }
    }
    forall id | CreateAhead(es, k, id) ensures CreateAhead(es', k, id) {
      var o :| o in es && IsCreateOf(o.command, k) && o.id <= id;
      assert o in es';
    }
  }

  lemma DropIdsSame(l: Link, i: nat, k: TripKey)
    requires Inv(l) && MayDrop(l, i) && l.outbox.entries[i].command.Of(k) && k !in l.abandoned && k !in l.late
    ensures IdsAgree(Dropped(l, i), k)
  {
    hide Inv, Converges, TripInv, ReplyOf, WriteTrip, WriteRows, TripOf, OwnRows, Sorted, CreateAhead;
    var es := l.outbox.entries;
    EntriesSorted(l);
    ServerOf(l);
    Removed(es, i);
    hide RemoveAt;
    EntryOf(l, es[i]);
    KeyOf(l, k);
    if es[i].command.CreateTrip? {
      CreateIsFirst(l, es[i], k);
      BornIsKnown(l, l.air[es[i].id].reply.value.id, k);
    } else if es[i].command.DeleteTrip? {
      DeletedIsGone(l.server, k);
    }
  }

  lemma BornIsKnown(l: Link, id: int, k: TripKey)
    requires ServerInv(l.server, l.claims, l.samples, l.late) && Bears(l.server, id, k)
    ensures id < l.server.nextId
  {
  }

  lemma DeletedIsGone(s: Server, k: TripKey)
    ensures WriteTrip(TripOf(s, k), DeleteTrip(k), k) == TripOf(s, k) ==> TripOf(s, k).None?
  {
  }

  lemma DropIds(l: Link, i: nat, k: TripKey)
    requires Inv(l) && MayDrop(l, i) && k !in l.abandoned && k !in l.late
    ensures IdsAgree(Dropped(l, i), k)
  {
    hide Inv, IdsAgree;
    if l.outbox.entries[i].command.Of(k) {
      DropIdsSame(l, i, k);
    } else {
      DropIdsOther(l, i, k);
    }
  }

  lemma DropTrip(l: Link, i: nat, k: TripKey)
    requires Inv(l) && MayDrop(l, i) && k !in l.abandoned && k !in l.late
    ensures TripInv(Dropped(l, i), k)
  {
    hide Converges, IdsAgree, ReplyOf, OrphansInv, ServerInv;
    var es := l.outbox.entries;
    var l' := Dropped(l, i);
    Removed(es, i);
    KeyOf(l, k);
    assert es[i] in es && CommandOk(l.claims, l.samples, es[i].command);
    forall e | e in l'.outbox.entries && IsCreateOf(e.command, k) ensures CreateOf(l', e, k) {
      assert CreateOf(l, e, k);
      DropCreate(l, i, e, k);
    }
    forall e | e in l'.outbox.entries && e.command == DeleteTrip(k) ensures DeleteOf(l', e, k) {
      assert DeleteOf(l, e, k);
    }
    assert k in l.leaked ==> !es[i].command.Of(k);
  }

  lemma DropCreate(l: Link, i: nat, e: Entry, k: TripKey)
    requires Sorted(l.outbox.entries) && MayDrop(l, i) && e in Dropped(l, i).outbox.entries
    requires IsCreateOf(e.command, k) && CreateOf(l, e, k)
    ensures CreateOf(Dropped(l, i), e, k)
  {
    hide Answered, Sorted, TripOf, RowsOf;
    Removed(l.outbox.entries, i);
    hide RemoveAt;
  }

  lemma DropOrphans(l: Link, i: nat)
    requires Inv(l) && MayDrop(l, i)
    ensures OrphansInv(Dropped(l, i))
  {
    hide ServerInv, FlightInv, KeyInv, RequestOf, CommandOk, Answered;
    EntriesSorted(l);
    Removed(l.outbox.entries, i);
    forall o | o in l.orphans ensures OrphanOk(Dropped(l, i), o) {
      OrphanIsOk(l, o);
    }
  }

  lemma DropKeepsInv(l: Link, i: nat)
    requires Inv(l) && MayDrop(l, i)
    ensures Inv(Dropped(l, i))
  {
    var e := l.outbox.entries[i];
    Removed(l.outbox.entries, i);
    DropFlight(l, i);
    DropOrphans(l, i);
    hide Converges, IdsAgree, TripInv, Loose, Stranded, FlightInv, OrphansInv, Answered, ServerInv;
    forall k ensures KeyInv(Dropped(l, i), k) {
      if k in l.late {
        DropLoose(l, i, k);
      } else if k in l.abandoned {
        DropStranded(l, i, k);
      } else {
        DropConverges(l, i, IdsAfter(l.outbox.tripIds, e.command, l.air[e.id].reply.value), k);
        DropIds(l, i, k);
        DropTrip(l, i, k);
      }
    }
  }

  lemma DropStranded(l: Link, i: nat, k: TripKey)
    requires Inv(l) && MayDrop(l, i) && k in l.abandoned && k !in l.late
    ensures Stranded(Dropped(l, i), k)
  {
    hide ServerInv, Answered;
    StrandedOf(l, k);
    Removed(l.outbox.entries, i);
    assert l.outbox.entries[i] in l.outbox.entries;
  }

  lemma DropLoose(l: Link, i: nat, k: TripKey)
    requires Inv(l) && MayDrop(l, i) && k in l.late
    ensures Loose(Dropped(l, i), k)
  {
    hide Inv, Answered, Ideal, OwnId, Sorted, Loose;
    var es := l.outbox.entries;
    EntriesSorted(l);
    Removed(es, i);
    hide RemoveAt;
    LooseOf(l, k);
    if es[i].command.Of(k) {
      DropLooseSame(l, i, k);
    } else {
      forall o | o in es && o.command.Of(k) ensures o in RemoveAt(es, i) {
        OtherStays(es, i, k, o);
      }
      SameOfIsLoose(l, Dropped(l, i), k);
    }
  }

  lemma DropLooseSame(l: Link, i: nat, k: TripKey)
    requires Inv(l) && MayDrop(l, i) && k in l.late && l.outbox.entries[i].command.Of(k)
    ensures Loose(Dropped(l, i), k)
  {
    hide Inv, Landed, Ideal, OwnId, Sorted, CreateAhead;
    var es := l.outbox.entries;
    var e := es[i];
    EntriesSorted(l);
    Removed(es, i);
    hide RemoveAt;
    EntryOf(l, e);
    LooseOf(l, k);
    if e.command.CreateTrip? {
      CreateIsFirst(l, e, k);
    }
  }

  lemma OtherStays(es: seq<Entry>, i: nat, k: TripKey, o: Entry)
    requires Sorted(es) && i < |es| && !es[i].command.Of(k) && o in es && o.command.Of(k)
    ensures o in RemoveAt(es, i)
  {
    Removed(es, i);
    hide RemoveAt;
    if o.id == es[i].id {
      SortedIds(es, i, o);
    }
  }

  datatype Effect = Removes | Rejects | Delays | Pauses | Abandons

  function Refusal(l: Link, i: nat, now: Time): DeadLetter
    requires MayDrop(l, i)
  {
    var e := l.outbox.entries[i];
    var reply := l.air[e.id].reply.value;
    DeadLetter(e.command, Rejected(if reply.Refused? then Some(reply.status) else None), now)
  }

  /** The five things a reported outcome can do to the entry. */
  ghost predicate Does(l: Link, l': Link, policy: RetryPolicy, id: nat, i: nat, o: Outcome, now: Time, how: Effect) {
    && i < |l.outbox.entries| && l.outbox.entries[i].id == id && id in l.air
    && var e := l.outbox.entries[i];
       match how
       case Removes => MayDrop(l, i) && l' == Dropped(l, i)
       case Rejects =>
         && MayDrop(l, i) && e.command.TripKeyOf().value in l.late
         && l' == Lettered(Dropped(l, i), l.outbox.deadLetters + [Refusal(l, i, now)])
       case Delays =>
         l' == PutBack(l, id, i, e.(inFlight := false, failures := e.failures + 1,
                                    notBefore := Some(now + policy.Delay(e.failures + 1))), l.outbox.paused,
                       l.orphans + Leftover(l, id, o))
       case Pauses =>
         && l.air[id].reply.None?
         && l' == PutBack(l, id, i, e.(inFlight := false), true, l.orphans)
       case Abandons => MayGiveUp(l, i) && l' == Abandon(l, i, now)
  }

  /** A reported outcome removes an entry the server holds, puts the entry back to wait, or, if it is an unreadable answer
      to a create, makes the outbox give up the trip. The outbox rejects no other command, unless a request of its trip
      has landed late. */
  lemma AnswerShape(l: Link, policy: RetryPolicy, id: nat, o: Outcome, now: Time) returns (i: nat, how: Effect)
    requires Inv(l) && MayAnswer(l, id, o)
    ensures Does(l, Answer(l, policy, id, o, now), policy, id, i, o, now, how)
    ensures how == Abandons <==> GivesUp(l.outbox.entries, id, o) != {}
    ensures how == Rejects <==> Refuses(l.outbox.entries, policy, id, o) != {}
    ensures Refuses(l.outbox.entries, policy, id, o) <= l.late
  {
    hide Inv, TripOf, OwnRows, WriteTrip, WriteRows, IsHead, Alone, Resolve;
    i := InTheAir(l, id);
    NothingLeft(l, id, o);
    match o
    case TripCreated(_) => how := Removes;
    case Delivered => how := Removes;
    case Failed(error) => how := FailureShape(l, policy, id, i, error, now);
  }

  lemma NothingLeft(l: Link, id: nat, o: Outcome)
    requires id in l.air
    ensures l.air[id].reply.Some? || Unauthorized(o) ==> l.orphans + Leftover(l, id, o) == l.orphans
  {
  }

  lemma FailureShape(l: Link, policy: RetryPolicy, id: nat, i: nat, error: ApiError, now: Time) returns (how: Effect)
    requires Inv(l) && MayAnswer(l, id, Failed(error))
    requires i < |l.outbox.entries| && i == IndexOf(l.outbox.entries, id) && l.outbox.entries[i].id == id
    requires l.outbox.entries[i].inFlight && FlightOf(l, l.outbox.entries[i])
    ensures Does(l, Answer(l, policy, id, Failed(error), now), policy, id, i, Failed(error), now, how)
    ensures how == Abandons <==> GivesUp(l.outbox.entries, id, Failed(error)) != {}
    ensures how == Rejects <==> Refuses(l.outbox.entries, policy, id, Failed(error)) != {}
    ensures Refuses(l.outbox.entries, policy, id, Failed(error)) <= l.late
  {
    hide Inv, TripOf, OwnRows, WriteTrip, WriteRows, IsHead, Alone, IndexOf, Shared, Orphans, Resolve, Leftover;
    hide RetryPolicy.Delay;
    var e := l.outbox.entries[i];
    NothingLeft(l, id, Failed(error));
    if error.Decoding? && e.command.CreateTrip? {
      how := Abandons;
      hide Without;
      WithoutRemoved(l.outbox.entries, i, e.command.key);
    } else {
      hide Without, RejectDependents;
      how := match policy.Decide(error, e.command)
        case Retry => Delays
        case Pause => Pauses
        case Reject => Rejects
        case TreatAsDelivered => Removes;
    }
  }

  lemma RejectsKeepsInv(l: Link, i: nat, now: Time)
    requires Inv(l) && MayDrop(l, i) && l.outbox.entries[i].command.TripKeyOf().value in l.late
    ensures Inv(Lettered(Dropped(l, i), l.outbox.deadLetters + [Refusal(l, i, now)]))
  {
    hide Inv, Answered, RemoveAt;
    EntriesSorted(l);
    EntryOf(l, l.outbox.entries[i]);
    DropKeepsInv(l, i);
    LettersKeepInv(Dropped(l, i), l.outbox.deadLetters + [Refusal(l, i, now)]);
  }

  lemma LeftoverMayBe(l: Link, id: nat, i: nat, o: Outcome, e': Entry)
    requires Inv(l) && id in l.air && i < |l.outbox.entries| && l.outbox.entries[i].id == id && e'.failures > 0
    ensures MayForget(l, id, i, e', l.orphans + Leftover(l, id, o))
  {
    hide Inv;
    EntriesSorted(l);
    forall x | x in l.outbox.entries && x.id == id ensures x == l.outbox.entries[i] {
      SortedIds(l.outbox.entries, i, x);
    }
  }

  lemma NothingToForget(l: Link, id: nat, i: nat, e': Entry)
    requires id in l.air && i < |l.outbox.entries|
    ensures MayForget(l, id, i, e', l.orphans)
  {
  }

  lemma AnswerKeepsInv(l: Link, policy: RetryPolicy, id: nat, o: Outcome, now: Time)
    requires Inv(l) && MayAnswer(l, id, o)
    ensures Inv(Answer(l, policy, id, o, now))
  {
    hide Inv, MayDrop, Answered, MayReport, Complete, Leftover, MayForget;
    var l' := Answer(l, policy, id, o, now);
    var i, how := AnswerShape(l, policy, id, o, now);
    var e := l.outbox.entries[i];
    match how {
      case Removes => DropKeepsInv(l, i);
      case Rejects => RejectsKeepsInv(l, i, now);
      case Delays =>
        var e' := e.(inFlight := false, failures := e.failures + 1, notBefore := Some(now + policy.Delay(e.failures + 1)));
        LeftoverMayBe(l, id, i, o, e');
        PutBackKeepsInv(l, l', id, i, e', l.outbox.paused, l.orphans + Leftover(l, id, o));
      case Pauses =>
        NothingToForget(l, id, i, e.(inFlight := false));
        PutBackKeepsInv(l, l', id, i, e.(inFlight := false), true, l.orphans);
      case Abandons => AbandonKeepsInv(l, i, now);
    }
  }
}
