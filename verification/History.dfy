/**
  What happened in a room, and who is entitled to what because of it. Nothing here
  looks at the router: these are the promises the router's lists are measured against.
*/
module History {

  /** The number in a user id, which reads "user_" and the nanosecond of connection. */
  datatype UserId = User(nanos: int)

  datatype Event =
    | Entered(user: UserId)
    | Left(user: UserId)
    | Produced(user: UserId, producerId: nat, kind: string)
    | Closed(user: UserId, producerId: nat)

  type Log = seq<Event>

  /** u entered and has not left since. */
  ghost predicate Present(h: Log, u: UserId) {
    exists i | 0 <= i < |h| :: h[i] == Entered(u) && Left(u) !in h[i + 1..]
  }

  /** h[i] created a producer which its owner had not closed before step j. */
  ghost predicate OpenAt(h: Log, i: nat, j: nat) {
    && i < |h| && h[i].Produced? && j <= |h|
    && Closed(h[i].user, h[i].producerId) !in h[..j]
  }

  /** At step j, v produced the kind of the producer that h[i] created, and could see its owner. */
  ghost predicate PulledAt(h: Log, i: nat, j: nat, v: UserId) {
    && OpenAt(h, i, j) && i < j < |h|
    && h[j].Produced? && h[j].user == v && h[j].kind == h[i].kind
    && Present(h[..j], h[i].user)
  }

  ghost predicate EntitledBy(h: Log, i: nat, v: UserId) {
    && i < |h| && h[i].Produced? && h[i].user != v
    && (Present(h[..i], v) || exists j: nat :: PulledAt(h, i, j, v))
  }

  /** v was there when another user created producer p, or has pulled it since. */
  ghost predicate Entitled(h: Log, v: UserId, p: nat) {
    exists i: nat :: EntitledBy(h, i, v) && h[i].producerId == p
  }

  /** No producer id is drawn twice, and all of them came from below `bound`. */
  ghost predicate FreshIds(h: Log, bound: nat) {
    && (forall i | 0 <= i < |h| && h[i].Produced? :: h[i].producerId < bound)
    && (forall i, j | 0 <= i < j < |h| && h[i].Produced? && h[j].Produced? ::
          h[i].producerId != h[j].producerId)
  }

  /** A user's first event is entering, or the user never enters. */
  ghost predicate EntersFirst(h: Log) {
    forall i, j | 0 <= i < j < |h| && h[j].Entered? :: h[i].user != h[j].user
  }

  lemma PresentAppend(h: Log, e: Event, u: UserId)
    ensures Present(h + [e], u) <==> e == Entered(u) || (e != Left(u) && Present(h, u))
  {
    var g := h + [e];
    assert g[|h|] == e && g[|h| + 1..] == [];
    if Present(g, u) {
      var i :| 0 <= i < |g| && g[i] == Entered(u) && Left(u) !in g[i + 1..];
      if i < |h| {
        assert g[i + 1..] == h[i + 1..] + [e];
        assert h[i] == Entered(u);
      }
    }
    if e != Left(u) && Present(h, u) {
      var i :| 0 <= i < |h| && h[i] == Entered(u) && Left(u) !in h[i + 1..];
      assert g[i] == h[i];
      assert g[i + 1..] == h[i + 1..] + [e];
    }
  }

  /** One more event takes no entitlement away. */
  lemma EntitledByGrows(h: Log, e: Event, i: nat, v: UserId)
    requires EntitledBy(h, i, v)
    ensures EntitledBy(h + [e], i, v)
  {
    var g := h + [e];
    assert g[..i] == h[..i];
    if j: nat :| PulledAt(h, i, j, v) {
      assert g[..j] == h[..j];
      assert PulledAt(g, i, j, v);
    }
  }

  /** The one way an event gives v something new. */
  ghost predicate Grants(h: Log, e: Event, i: nat, v: UserId) {
    && e.Produced? && i <= |h|
    && if i == |h|
       then e.user != v && Present(h, v)
       else OpenAt(h, i, |h|) && h[i].user != v && e.user == v && h[i].kind == e.kind && Present(h, h[i].user)
  }

  lemma EntitledByAppend(h: Log, e: Event, i: nat, v: UserId)
    ensures EntitledBy(h + [e], i, v) <==> EntitledBy(h, i, v) || Grants(h, e, i, v)
  {
    var g := h + [e];
    assert g[..|h|] == h;
    if EntitledBy(h, i, v) {
      EntitledByGrows(h, e, i, v);
    }
    if Grants(h, e, i, v) && i < |h| {
      assert PulledAt(g, i, |h|, v);
    }
    if EntitledBy(g, i, v) && i < |h| {
      assert g[..i] == h[..i];
      if !Present(h[..i], v) {
        var j: nat :| PulledAt(g, i, j, v);
        assert g[..j] == h[..j];
        if j < |h| {
          assert PulledAt(h, i, j, v);
        }
      }
    }
  }

  /** An owner who is present now, and did nothing before entering, was present at every step since h[i]. */
  lemma OwnerStayed(h: Log, i: nat, j: nat)
    requires EntersFirst(h)
    requires i < j < |h| && h[i].Produced? && Present(h, h[i].user)
    ensures Present(h[..j], h[i].user)
  {
    var u := h[i].user;
    var e :| 0 <= e < |h| && h[e] == Entered(u) && Left(u) !in h[e + 1..];
    assert e < i;
    assert h[..j][e] == Entered(u);
    assert h[e + 1..] == h[..j][e + 1..] + h[j..];
  }

  lemma StillOpenBefore(h: Log, i: nat, j: nat)
    requires OpenAt(h, i, |h|) && j <= |h|
    ensures OpenAt(h, i, j)
  {
    assert h == h[..|h|];
    assert h == h[..j] + h[j..];
  }

  /** v has produced the kind of the producer that h[i] created, after h[i]. */
  ghost predicate ProducedSince(h: Log, i: nat, v: UserId) {
    i < |h| && h[i].Produced? &&
    exists j | i < j < |h| :: h[j].Produced? && h[j].user == v && h[j].kind == h[i].kind
  }

  /**
    Among users who enter before they do anything else, a present owner has been there
    all along, so entitlement reads: v was present when p was produced, or has produced
    p's kind since.
  */
  lemma EntitledWhilePresent(h: Log, i: nat, v: UserId, bound: nat)
    requires EntersFirst(h) && FreshIds(h, bound)
    requires OpenAt(h, i, |h|) && i < |h| && Present(h, h[i].user) && v != h[i].user
    ensures Entitled(h, v, h[i].producerId) <==> Present(h[..i], v) || ProducedSince(h, i, v)
  {
    if ProducedSince(h, i, v) {
      var j :| i < j < |h| && h[j].Produced? && h[j].user == v && h[j].kind == h[i].kind;
      OwnerStayed(h, i, j);
      StillOpenBefore(h, i, j);
      assert PulledAt(h, i, j, v);
    }
    assert (exists j: nat :: PulledAt(h, i, j, v)) <==> ProducedSince(h, i, v);
    EntitledById(h, i, v, bound);
  }

  /** A producer id names one production. */
  lemma EntitledById(h: Log, i: nat, v: UserId, bound: nat)
    requires FreshIds(h, bound) && i < |h| && h[i].Produced?
    ensures Entitled(h, v, h[i].producerId) <==> EntitledBy(h, i, v)
  {
    if Entitled(h, v, h[i].producerId) {
      var k: nat :| EntitledBy(h, k, v) && h[k].producerId == h[i].producerId;
      assert k == i;
    }
  }
}
