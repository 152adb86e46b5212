/** The retry schedule: a Redis sorted set, kept as its entries in (score, member) order. */
module SortedSet {

  datatype Slot = Slot(score: nat, id: nat)

  predicate Before(a: Slot, b: Slot) {
    a.score < b.score || (a.score == b.score && a.id < b.id)
  }

  ghost predicate Valid(z: seq<Slot>) {
    forall i, j | 0 <= i < j < |z| :: Before(z[i], z[j]) && z[i].id != z[j].id
  }

  function Members(z: seq<Slot>): set<nat> { set x | x in z :: x.id }

  function Without(z: seq<Slot>, ids: set<nat>): seq<Slot> {
    if z == [] then []
    else if z[0].id in ids then Without(z[1..], ids)
    else [z[0]] + Without(z[1..], ids)
  }

  function Insert(z: seq<Slot>, x: Slot): seq<Slot> {
    if z == [] || Before(x, z[0]) then [x] + z else [z[0]] + Insert(z[1..], x)
  }

  /** ZADD: one entry per member, the last score wins. */
  function Add(z: seq<Slot>, id: nat, score: nat): seq<Slot> {
    Insert(Without(z, {id}), Slot(score, id))
  }

  /** ZRANGEBYSCORE z 0 now LIMIT 0 limit. */
  function Due(z: seq<Slot>, now: nat, limit: nat): seq<nat> {
    if z == [] || limit == 0 || now < z[0].score then [] else [z[0].id] + Due(z[1..], now, limit - 1)
  }

  /** How many entries are due. */
  function CountDue(z: seq<Slot>, now: nat): nat {
    if z == [] then 0 else (if z[0].score <= now then 1 else 0) + CountDue(z[1..], now)
  }

  function Ids(due: seq<nat>): set<nat> { set x | x in due }

  lemma {:induction false} WithoutContents(z: seq<Slot>, ids: set<nat>)
    ensures forall x :: x in Without(z, ids) <==> x in z && x.id !in ids
    ensures Members(Without(z, ids)) == Members(z) - ids
    ensures |Without(z, ids)| <= |z|
  {
    if z != [] {
      WithoutContents(z[1..], ids);
      assert z == [z[0]] + z[1..];
    }
  }

  lemma {:induction false} WithoutValid(z: seq<Slot>, ids: set<nat>)
    requires Valid(z)
    ensures Valid(Without(z, ids))
  {
    if z != [] {
      WithoutValid(z[1..], ids);
      WithoutContents(z[1..], ids);
      var rest := Without(z[1..], ids);
      forall k | 0 <= k < |rest| ensures Before(z[0], rest[k]) && z[0].id != rest[k].id {
        assert rest[k] in z[1..];
      }
    }
  }

  lemma {:induction false} InsertContents(z: seq<Slot>, x: Slot)
    ensures forall y :: y in Insert(z, x) <==> y == x || y in z
    ensures |Insert(z, x)| == |z| + 1
  {
    if z != [] {
      InsertContents(z[1..], x);
      assert z == [z[0]] + z[1..];
    }
  }

  lemma {:induction false} InsertValid(z: seq<Slot>, x: Slot)
    requires Valid(z) && x.id !in Members(z)
    ensures Valid(Insert(z, x))
  {
    if z == [] {
    } else if Before(x, z[0]) {
      forall k | 0 <= k < |z| ensures Before(x, z[k]) && x.id != z[k].id {
        assert z[k] in z;
      }
    } else {
      assert z[0] in z;
      forall y | y in z[1..] ensures y in z {}
      InsertValid(z[1..], x);
      InsertContents(z[1..], x);
      var rest := Insert(z[1..], x);
      forall k | 0 <= k < |rest| ensures Before(z[0], rest[k]) && z[0].id != rest[k].id {
        assert rest[k] == x || rest[k] in z[1..];
      }
    }
  }

  lemma AddContents(z: seq<Slot>, id: nat, score: nat)
    ensures forall y :: y in Add(z, id, score) <==> y == Slot(score, id) || (y in z && y.id != id)
    ensures Members(Add(z, id, score)) == Members(z) + {id}
    ensures |Add(z, id, score)| <= |z| + 1
    ensures Valid(z) ==> Valid(Add(z, id, score))
  {
    WithoutContents(z, {id});
    InsertContents(Without(z, {id}), Slot(score, id));
    forall m | m in Members(z) + {id} ensures m in Members(Add(z, id, score)) {
      if m == id {
        assert Slot(score, id) in Add(z, id, score);
      } else {
        var y :| y in z && y.id == m;
        assert y in Add(z, id, score);
      }
    }
    if Valid(z) {
      WithoutValid(z, {id});
      InsertValid(Without(z, {id}), Slot(score, id));
    }
  }

  /** What is due is the front of the set, and taking it away leaves the rest. */
  lemma {:induction false} DueIsPrefix(z: seq<Slot>, now: nat, limit: nat)
    requires Valid(z)
    ensures var due := Due(z, now, limit);
            && |due| == (if CountDue(z, now) < limit then CountDue(z, now) else limit)
            && |due| <= |z|
            && (forall k | 0 <= k < |due| :: z[k].score <= now && due[k] == z[k].id)
            && (|due| < limit ==> forall k | |due| <= k < |z| :: now < z[k].score)
            && Without(z, Ids(due)) == z[|due|..]
  {
    var due := Due(z, now, limit);
    if z == [] || limit == 0 {
      assert Ids(due) == {};
      WithoutNone(z);
    } else if now < z[0].score {
      NoneDue(z, now);
      assert Ids(due) == {};
      WithoutNone(z);
    } else {
      DueIsPrefix(z[1..], now, limit - 1);
      var rest := Due(z[1..], now, limit - 1);
      assert due == [z[0].id] + rest;
      assert forall k | 1 <= k < |due| :: due[k] == rest[k - 1];
      WithoutFirst(z, rest);
    }
  }

  lemma {:induction false} WithoutFirst(z: seq<Slot>, rest: seq<nat>)
    requires Valid(z) && z != [] && |rest| < |z| && Without(z[1..], Ids(rest)) == z[1..][|rest|..]
    ensures Without(z, Ids([z[0].id] + rest)) == z[|rest| + 1..]
  {
    WithoutExtra(z[1..], Ids(rest), z[0].id);
    assert Ids([z[0].id] + rest) == Ids(rest) + {z[0].id};
  }

  lemma {:induction false} DueIsDue(z: seq<Slot>, now: nat, limit: nat, e: nat)
    requires e in Due(z, now, limit)
    ensures exists x :: x in z && x.id == e && x.score <= now
  {
    var rest := Due(z[1..], now, limit - 1);
    if z[0].id != e {
      DueIsDue(z[1..], now, limit - 1, e);
    } else {
      assert z[0] in z;
    }
  }

  lemma {:induction false} WithoutNone(z: seq<Slot>)
    ensures Without(z, {}) == z
  {
    if z != [] { WithoutNone(z[1..]); }
  }

  lemma {:induction false} WithoutExtra(z: seq<Slot>, ids: set<nat>, id: nat)
    requires forall k | 0 <= k < |z| :: z[k].id != id
    ensures Without(z, ids + {id}) == Without(z, ids)
  {
    if z != [] { WithoutExtra(z[1..], ids, id); }
  }

  lemma {:induction false} NoneDue(z: seq<Slot>, now: nat)
    requires forall k | 0 <= k < |z| :: now < z[k].score
    ensures CountDue(z, now) == 0
  {
    if z != [] { NoneDue(z[1..], now); }
  }

  /** One poll takes exactly the min(limit, due) lowest entries, none before its score,
      and keeps every other entry with its score. */
  lemma {:induction false} PullTakesLowestDue(z: seq<Slot>, now: nat, limit: nat)
    requires Valid(z)
    ensures var due := Due(z, now, limit); var rest := Without(z, Ids(due));
            && Valid(rest)
            && |due| == (if CountDue(z, now) < limit then CountDue(z, now) else limit)
            && |rest| == |z| - |due|
            && (forall x | x in z :: x.id in due ==> x.score <= now)
            && (forall x | x in z :: x.id in due || x in rest)
            && (forall x, y | x in z && x.id in due && y in rest :: Before(x, y))
            && Members(rest) == Members(z) - Ids(due)
            && CountDue(rest, now) == CountDue(z, now) - |due|
  {
    DueIsPrefix(z, now, limit);
    WithoutContents(z, Ids(Due(z, now, limit)));
    var due := Due(z, now, limit);
    forall x | x in z && x.id in due ensures exists i :: 0 <= i < |due| && z[i] == x {
      var k :| 0 <= k < |due| && due[k] == x.id;
      var i :| 0 <= i < |z| && z[i] == x;
      assert i == k;
    }
    CountDueSplit(z, |due|, now);
    AllDue(z[..|due|], now);
  }

  lemma {:induction false} CountDueSplit(z: seq<Slot>, n: nat, now: nat)
    requires n <= |z|
    ensures CountDue(z, now) == CountDue(z[..n], now) + CountDue(z[n..], now)
  {
    if n != 0 {
      CountDueSplit(z[1..], n - 1, now);
      assert z[..n][1..] == z[1..][..n - 1];
      assert z[n..] == z[1..][n - 1..];
    }
  }

  lemma {:induction false} AllDue(z: seq<Slot>, now: nat)
    requires forall k | 0 <= k < |z| :: z[k].score <= now
    ensures CountDue(z, now) == |z|
  {
    if z != [] { AllDue(z[1..], now); }
  }

  /** The set after a number of polls at the same time. */
  function Polled(z: seq<Slot>, now: nat, limit: nat, rounds: nat): seq<Slot> {
    if rounds == 0 then z
    else var before := Polled(z, now, limit, rounds - 1); Without(before, Ids(Due(before, now, limit)))
  }

  /** k due entries are gone after ceil(k / limit) polls, and not before. */
  lemma {:induction false} PollsDrain(z: seq<Slot>, now: nat, limit: nat, rounds: nat)
    requires Valid(z) && 0 < limit
    ensures Valid(Polled(z, now, limit, rounds))
    ensures var left := CountDue(z, now) - rounds * limit;
            CountDue(Polled(z, now, limit, rounds), now) == if left < 0 then 0 else left
    ensures CountDue(Polled(z, now, limit, rounds), now) == 0 <==> (CountDue(z, now) + limit - 1) / limit <= rounds
  {
    if rounds != 0 {
      PollsDrain(z, now, limit, rounds - 1);
      PullTakesLowestDue(Polled(z, now, limit, rounds - 1), now, limit);
      assert rounds * limit == (rounds - 1) * limit + limit;
    }
    CeilingDivision(CountDue(z, now), limit, rounds);
  }

  lemma CeilingDivision(k: nat, limit: nat, rounds: nat)
    requires 0 < limit
    ensures k <= rounds * limit <==> (k + limit - 1) / limit <= rounds
  {
    var q := (k + limit - 1) / limit;
    assert q * limit <= k + limit - 1 < (q + 1) * limit;
    if q <= rounds {
      assert q * limit <= rounds * limit;
    } else {
      assert (rounds + 1) * limit <= q * limit;
    }
  }
}
