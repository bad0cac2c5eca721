/** Why sending a command twice, late or merged means the same as sending it once. */
module ServerLaws {
  import opened Basics
  import opened Commands
  import opened TripServer

  lemma WriteListTwice(list: seq<Attempt>, u: Upsert)
    ensures WriteList(WriteList(list, u), u) == WriteList(list, u)
  {
    if Numbered(u, |list|) {
      var once := WriteList(list, u);
      assert WriteAttempt(once[u.Seq() - 1], u) == once[u.Seq() - 1];
      assert WriteList(once, u) == once;
    }
  }

  /** Upserting the same fields again changes nothing. */
  lemma UpsertIsIdempotent(t: TripRec, u: Upsert)
    ensures WriteUpsert(WriteUpsert(t, u), u) == WriteUpsert(t, u)
  {
    WriteListTwice(t.On(u.legId), u);
    var once := WriteUpsert(t, u);
    if Numbered(u, |t.On(u.legId)|) {
      assert once.attempts[u.legId := once.attempts[u.legId]] == once.attempts;
    }
  }

  lemma WriteListMerged(list: seq<Attempt>, older: Upsert, newer: Upsert)
    requires older.SameAttempt(newer)
    ensures WriteList(list, older.MergedWith(newer)) == WriteList(WriteList(list, older), newer)
  {
    var merged := older.MergedWith(newer);
    assert merged.Seq() == older.Seq();
    if Numbered(older, |list|) {
      var first := WriteList(list, older);
      var at := older.Seq() - 1;
      assert WriteList(first, newer) == first[at := WriteAttempt(first[at], newer)];
      assert WriteList(list, merged) == WriteList(first, newer);
    }
  }

  /** The merged upsert does what the two did in turn, whether or not the older one landed before. */
  lemma UpsertMergeLaw(t: TripRec, older: Upsert, newer: Upsert)
    requires older.SameAttempt(newer)
    ensures WriteUpsert(t, older.MergedWith(newer)) == WriteUpsert(WriteUpsert(t, older), newer)
    ensures WriteUpsert(WriteUpsert(t, older), older.MergedWith(newer)) == WriteUpsert(WriteUpsert(t, older), newer)
  {
    UpsertMergeOnce(t, older, newer);
    UpsertMergeOnce(WriteUpsert(t, older), older, newer);
    UpsertIsIdempotent(t, older);
  }

  lemma UpsertMergeOnce(t: TripRec, older: Upsert, newer: Upsert)
    requires older.SameAttempt(newer)
    ensures WriteUpsert(t, older.MergedWith(newer)) == WriteUpsert(WriteUpsert(t, older), newer)
  {
    WriteListMerged(t.On(older.legId), older, newer);
    var merged := older.MergedWith(newer);
    assert merged.Seq() == older.Seq();
    if Numbered(older, |t.On(older.legId)|) {
      var first := WriteUpsert(t, older);
      assert first.On(older.legId) == WriteList(t.On(older.legId), older);
      assert WriteUpsert(t, merged).attempts == WriteUpsert(first, newer).attempts;
    }
  }

  lemma PatchMergeLaw(t: TripRec, older: TripPatch, newer: TripPatch)
    ensures WritePatch(t, older.MergedWith(newer)) == WritePatch(WritePatch(t, older), newer)
    ensures WritePatch(WritePatch(t, older), older.MergedWith(newer)) == WritePatch(WritePatch(t, older), newer)
  {
  }

  lemma {:induction false} InsertedKeys(gps: map<Time, GpsRow>, owner: Option<int>, points: seq<GpsPoint>)
    ensures var after := InsertPoints(gps, owner, points);
            && (forall t :: t in gps ==> t in after && after[t] == gps[t])
            && (forall p :: p in points ==> p.recordedAt in after)
            && (forall t :: t in after && t !in gps ==> after[t].tripId == owner)
            && (forall t :: t in after && t !in gps ==> exists p :: p in points && p.recordedAt == t)
  {
    if points != [] {
      InsertedKeys(gps, owner, points[..|points| - 1]);
      assert points == points[..|points| - 1] + [points[|points| - 1]];
    }
  }

  lemma {:induction false} InsertKnown(gps: map<Time, GpsRow>, owner: Option<int>, points: seq<GpsPoint>)
    requires forall p :: p in points ==> p.recordedAt in gps
    ensures InsertPoints(gps, owner, points) == gps
  {
    if points != [] {
      InsertKnown(gps, owner, points[..|points| - 1]);
      assert points[|points| - 1] in points;
    }
  }

  /** At an instant the first point stays: a resent batch adds nothing, and a point whose instant is taken, be it by
      another trip, is dropped while its upload is accepted. */
  lemma {:induction false} UploadKeepsFirst(gps: map<Time, GpsRow>, owner: Option<int>, points: seq<GpsPoint>, i: nat)
    requires i < |points| && forall j :: 0 <= j < i ==> points[j].recordedAt != points[i].recordedAt
    ensures var after := InsertPoints(gps, owner, points);
            && points[i].recordedAt in after
            && after[points[i].recordedAt]
               == (if points[i].recordedAt in gps then gps[points[i].recordedAt] else GpsRow(owner, points[i]))
            && InsertPoints(after, owner, points) == after
  {
    var front := points[..|points| - 1];
    InsertedKeys(gps, owner, points);
    InsertKnown(InsertPoints(gps, owner, points), owner, points);
    if i < |front| {
      UploadKeepsFirst(gps, owner, front, i);
    } else {
      InsertedKeys(gps, owner, front);
    }
  }

  /** Two trips that sampled the same instant: both uploads are accepted, the later point is lost, and deleting the trip
      that came first takes the instant away from both. */
  lemma SharedInstantIsLost(s: Server, first: int, second: int, p: GpsPoint, q: GpsPoint)
    requires first in s.trips && second in s.trips && first != second
    requires PointValid(p) && PointValid(q) && p.recordedAt == q.recordedAt && p.recordedAt !in s.gps
    ensures var (s1, r1) := ServeUpload(s, Some(first), [p]);
            var (s2, r2) := ServeUpload(s1, Some(second), [q]);
            var (s3, r3) := ServeDelete(s2, first);
            && r1 == Accepted && r2 == Accepted && r3 == Accepted
            && q.recordedAt in s2.gps && s2.gps[q.recordedAt] == GpsRow(Some(first), p)
            && q.recordedAt !in s3.gps
  {
    var s1 := ServeUpload(s, Some(first), [p]).0;
    UploadKeepsFirst(s.gps, Some(first), [p], 0);
    UploadKeepsFirst(s1.gps, Some(second), [q], 0);
  }
}
