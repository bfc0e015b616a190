/**
  The in-memory idempotency table of a worker process (`_claim`, core/queue_worker.py,
  lines 35-55): expired entries are purged at every call, so the table is only a remnant of
  the calls it has seen.
 */
module ClaimTable {
  import opened Dicts

  const TTL: real := 86400.0

  type Claims = map<string, real>

  /** One call: the key it claims and the clock reading it made before taking the lock. */
  datatype Call = Call(key: Option<string>, now: real)

  /** A missing or empty key is granted without looking at the table. */
  predicate Keyed(key: Option<string>) {
    key.Some? && |key.value| > 0
  }

  function Purge(claims: Claims, now: real): Claims {
    map key | key in claims && claims[key] > now :: claims[key]
  }

  predicate Grants(claims: Claims, c: Call) {
    Keyed(c.key) ==> c.key.value !in Purge(claims, c.now)
  }

  function After(claims: Claims, c: Call): Claims {
    if !Keyed(c.key) then claims
    else
      var live := Purge(claims, c.now);
      if c.key.value in live then live else live[c.key.value := c.now + TTL]
  }

  class ClaimRegistry {
    var claims: Claims

    constructor ()
      ensures claims == map[]
    {
      claims := map[];
    }

    method Claim(key: Option<string>, now: real) returns (granted: bool)
      modifies this
      ensures claims == After(old(claims), Call(key, now))
      ensures granted == Grants(old(claims), Call(key, now))
    {
      if key == None || |key.value| == 0 {
        return true;
      }
      ghost var before := claims;
      var expired := set item | item in claims && claims[item] <= now;
      while expired != {}
        invariant expired <= claims.Keys
        invariant claims == map item | item in before && (before[item] > now || item in expired) :: before[item]
        invariant forall item :: item in expired ==> before[item] <= now
        decreases |expired|
      {
        var item :| item in expired;
        expired := expired - {item};
        claims := claims - {item};
      }
      assert claims == Purge(before, now);
      if key.value in claims {
        return false;
      }
      claims := claims[key.value := now + TTL];
      return true;
    }
  }

  // ---------------------------------------------------------------- the table against the whole history

  function Table(calls: seq<Call>): Claims {
    if |calls| == 0 then map[] else After(Table(calls[..|calls| - 1]), calls[|calls| - 1])
  }

  /** Whether call `i` of the history was granted. */
  predicate Granted(calls: seq<Call>, i: nat)
    requires i < |calls|
  {
    Grants(Table(calls[..i]), calls[i])
  }

  /** Call `j` was granted and no keyed call before `n` read a clock that lets it expire. */
  ghost predicate Lives(calls: seq<Call>, j: nat, n: nat)
    requires n <= |calls|
  {
    && j < n && Keyed(calls[j].key) && Granted(calls, j)
    && forall m :: j < m < n && Keyed(calls[m].key) ==> calls[m].now < calls[j].now + TTL
  }

  /** The entry that call `j` wrote is still in the table after the first `n` calls. */
  ghost predicate Stored(calls: seq<Call>, j: nat, n: nat)
    requires j < n <= |calls|
  {
    calls[j].key.Some? &&
    var table := Table(calls[..n]);
    calls[j].key.value in table && table[calls[j].key.value] == calls[j].now + TTL
  }

  lemma TableStep(calls: seq<Call>, n: nat)
    requires n < |calls|
    ensures Table(calls[..n + 1]) == After(Table(calls[..n]), calls[n])
  {
    assert calls[..n + 1][..n] == calls[..n];
  }

  lemma {:induction false} LiveIsStored(calls: seq<Call>, j: nat, n: nat)
    requires n <= |calls| && Lives(calls, j, n)
    ensures Stored(calls, j, n)
  {
    TableStep(calls, n - 1);
    if j < n - 1 {
      assert Lives(calls, j, n - 1);
      LiveIsStored(calls, j, n - 1);
    }
  }

  lemma {:induction false} StoredIsLive(calls: seq<Call>, n: nat, k: string) returns (j: nat)
    requires n <= |calls| && k in Table(calls[..n])
    ensures Lives(calls, j, n) && calls[j].key == Some(k) && Stored(calls, j, n)
  {
    if n == 0 {
      assert false;
    } else {
      TableStep(calls, n - 1);
      var c := calls[n - 1];
      if Keyed(c.key) && Granted(calls, n - 1) && c.key == Some(k) {
        j := n - 1;
      } else {
        j := StoredIsLive(calls, n - 1, k);
      }
    }
  }

  /**
    For every sequence of clock readings: a keyed call is refused exactly when an earlier granted
    call with its key has been outlived by no keyed call since, this one included.
   */
  lemma RefusedIffLive(calls: seq<Call>, i: nat)
    requires i < |calls| && Keyed(calls[i].key)
    ensures !Granted(calls, i) <==>
      exists j :: 0 <= j < i && calls[j].key == calls[i].key && Lives(calls, j, i) && calls[i].now < calls[j].now + TTL
  {
    if !Granted(calls, i) {
      var j := StoredIsLive(calls, i, calls[i].key.value);
    }
    forall j | 0 <= j < i && calls[j].key == calls[i].key && Lives(calls, j, i) && calls[i].now < calls[j].now + TTL
      ensures !Granted(calls, i)
    {
      LiveIsStored(calls, j, i);
    }
  }

  /** Call `j` is the last one granted to the key of call `i` before it. */
  ghost predicate LatestGrant(calls: seq<Call>, j: nat, i: nat)
    requires i < |calls|
  {
    && j < i && calls[j].key == calls[i].key && Granted(calls, j)
    && forall m :: j < m < i && calls[m].key == calls[i].key ==> !Granted(calls, m)
  }

  /** Some keyed call after `j`, up to and including `i`, read a clock at least the TTL past call `j`. */
  ghost predicate Outlived(calls: seq<Call>, j: nat, i: nat)
    requires j < i < |calls|
  {
    exists m :: j < m <= i && Keyed(calls[m].key) && calls[m].now >= calls[j].now + TTL
  }

  /** With no assumption on the clock: granted exactly when the latest earlier grant was outlived. */
  lemma GrantedIffOutlived(calls: seq<Call>, i: nat)
    requires i < |calls| && Keyed(calls[i].key)
    ensures Granted(calls, i) <==> forall j :: 0 <= j < i && LatestGrant(calls, j, i) ==> Outlived(calls, j, i)
  {
    RefusedIffLive(calls, i);
    if Granted(calls, i) {
      forall j | 0 <= j < i && LatestGrant(calls, j, i) ensures Outlived(calls, j, i) {
        if !Outlived(calls, j, i) {
          assert Lives(calls, j, i);
        }
      }
    } else {
      var j :| 0 <= j < i && calls[j].key == calls[i].key && Lives(calls, j, i) && calls[i].now < calls[j].now + TTL;
      forall m | j < m < i && calls[m].key == calls[i].key ensures !Granted(calls, m) {
        assert Lives(calls, j, m);
        RefusedIffLive(calls, m);
      }
      assert LatestGrant(calls, j, i) && !Outlived(calls, j, i);
    }
  }

  /** The keyed calls, which alone read the clock, read it in the order in which they take the lock. */
  ghost predicate InLockOrder(calls: seq<Call>) {
    forall i, j :: 0 <= i < j < |calls| && Keyed(calls[i].key) && Keyed(calls[j].key) ==> calls[i].now <= calls[j].now
  }

  /**
    When the readings follow the order of the lock, a keyed call is granted exactly when its
    latest earlier grant is at least a day ago.
   */
  lemma GrantedIffLatestExpired(calls: seq<Call>, i: nat)
    requires InLockOrder(calls) && i < |calls| && Keyed(calls[i].key)
    ensures Granted(calls, i) <==>
      forall j :: 0 <= j < i && LatestGrant(calls, j, i) ==> calls[i].now - calls[j].now >= 86400.0
  {
    GrantedIffOutlived(calls, i);
    forall j | 0 <= j < i && LatestGrant(calls, j, i)
      ensures Outlived(calls, j, i) <==> calls[i].now - calls[j].now >= 86400.0
    {
    }
  }

  /**
    The clock is read before the lock is taken, so the order can differ.  Then a key can be
    granted again too early: here 50 000 seconds after its latest grant.
   */
  lemma OutOfOrderReadingGrantsEarly()
    ensures var calls := [Call(Some("a"), 0.0), Call(Some("b"), 100000.0), Call(Some("a"), 50000.0)];
      Granted(calls, 0) && Granted(calls, 2) && LatestGrant(calls, 0, 2) && calls[2].now - calls[0].now < TTL
  {
    var calls := [Call(Some("a"), 0.0), Call(Some("b"), 100000.0), Call(Some("a"), 50000.0)];
    assert calls[..0] == [];
    assert Granted(calls, 0);
    assert Outlived(calls, 0, 2) by {
      assert Keyed(calls[1].key) && calls[1].now >= calls[0].now + TTL;
    }
    assert LatestGrant(calls, 0, 2) by {
      assert "a"[0] != "b"[0];
    }
    forall j | 0 <= j < 2 && LatestGrant(calls, j, 2) ensures j == 0 {
      assert "a"[0] != "b"[0];
    }
    GrantedIffOutlived(calls, 2);
  }
}
