/** Rebuilding Redis stock from the ledger and the surviving admissions while all business is
    stopped: the counting loops, what they count, and why the result never oversells. */
module InventoryRecovery {
  import opened Common
  import opened AdmissionScripts
  import opened OrderPrograms
  import opened OrderInvariants

  datatype Gift = Gift(id: int, count: nat)

  // ---------------------------------------------------------------- what is counted

  /** Redis-mode rows that still occupy a unit. */
  function Occupying(ledger: map<int, Row>, gid: int): set<int> {
    set u | u in ledger && ledger[u].gift == gid && ledger[u].mode == RedisMode
            && (ledger[u].status == PendingPayment || ledger[u].status == Paid)
  }

  predicate IsUnpersisted(m: Stores, uid: int, gid: int) {
    && uid in m.redis.admissions
    && m.redis.admissions[uid].gift == gid
    && m.redis.admissions[uid].state != Cancelled
    && Find(m.ledger, uid, m.redis.admissions[uid].id).None?
  }

  function Unpersisted(m: Stores, gid: int): set<int> {
    set u | u in m.redis.admissions && IsUnpersisted(m, u, gid)
  }

  /** SCAN may return a key more than once, and every return is counted. */
  function CountedKeys(m: Stores, scan: seq<int>, gid: int): seq<int> {
    if scan == [] then []
    else (if IsUnpersisted(m, scan[0], gid) then [scan[0]] else []) + CountedKeys(m, scan[1..], gid)
  }

  function Sold(m: Stores, scan: seq<int>, gid: int): nat {
    |Occupying(m.ledger, gid)| + |CountedKeys(m, scan, gid)|
  }

  function Remaining(count: nat, sold: nat): nat {
    if count < sold then 0 else count - sold
  }

  predicate Covers(m: Stores, scan: seq<int>) {
    forall u :: u in m.redis.admissions ==> u in scan
  }

  /** Occupying rows without a live admission of the same identity behind them: the admission
      was cancelled but its ledger write is still owed, or its key has expired. */
  predicate IsSurplus(m: Stores, uid: int, gid: int) {
    && uid in Occupying(m.ledger, gid)
    && !(uid in Holders(m.redis.admissions, gid) && Find(m.ledger, uid, m.redis.admissions[uid].id).Some?)
  }

  function Surplus(m: Stores, gid: int): set<int> {
    set u | u in m.ledger && IsSurplus(m, u, gid)
  }

  /** Pending rows whose own admission is already cancelled. */
  function Lagging(m: Stores, gid: int): set<int> {
    set u | u in Occupying(m.ledger, gid) && u in m.redis.admissions
            && m.redis.admissions[u].id == m.ledger[u].id && m.redis.admissions[u].state == Cancelled
  }

  predicate Distinct(s: seq<int>) {
    forall i, j :: 0 <= i < j < |s| ==> s[i] != s[j]
  }

  function Elements(s: seq<int>): set<int> {
    set x | x in s
  }

  // ---------------------------------------------------------------- counting

  lemma {:induction false} ElementsOf(s: seq<int>)
    ensures |Elements(s)| <= |s|
    ensures |Elements(s)| == |s| <==> Distinct(s)
  {
    if s == [] {
      assert Elements(s) == {};
    } else {
      ElementsOf(s[1..]);
      if s[0] in s[1..] {
        assert Elements(s) == Elements(s[1..]);
        var j :| 0 <= j < |s[1..]| && s[1..][j] == s[0];
        assert s[0] == s[j + 1];
      } else {
        assert Elements(s) == {s[0]} + Elements(s[1..]);
        assert Distinct(s) ==> Distinct(s[1..]) by {
          assert forall i :: 0 <= i < |s[1..]| ==> s[1..][i] == s[i + 1];
        }
        if Distinct(s[1..]) {
          forall i, j | 0 <= i < j < |s|
            ensures s[i] != s[j]
          {
            assert s[j] == s[1..][j - 1];
            assert i > 0 ==> s[i] == s[1..][i - 1];
          }
        }
      }
    }
  }

  lemma {:induction false} CountedElements(m: Stores, scan: seq<int>, gid: int)
    ensures Elements(CountedKeys(m, scan, gid)) == set u | u in scan && IsUnpersisted(m, u, gid)
  {
    if scan == [] {
    } else {
      CountedElements(m, scan[1..], gid);
      var head := if IsUnpersisted(m, scan[0], gid) then [scan[0]] else [];
      assert Elements(CountedKeys(m, scan, gid)) == Elements(head) + Elements(CountedKeys(m, scan[1..], gid));
      assert scan == [scan[0]] + scan[1..];
    }
  }

  /** A live admission with a Redis-mode row of its own is counted by that row. */
  lemma HolderWithRowOccupies(m: Stores, uid: int, gid: int)
    requires Coherent(m)
    requires uid in Backed(m, gid)
    ensures uid in Occupying(m.ledger, gid)
  {
    assert AdmissionRecorded(m, uid) && FateOk(m, (uid, m.redis.admissions[uid].id));
    assert RowOk(m, uid);
  }

  /** Holders whose own ledger row exists and counts. */
  function Backed(m: Stores, gid: int): set<int> {
    set u | u in Holders(m.redis.admissions, gid) && Find(m.ledger, u, m.redis.admissions[u].id).Some?
            && m.ledger[u].mode == RedisMode
  }

  /** Holders that recovery misses: their lookup finds a MySQL-mode row, which says "persisted" but is
      not among the counted rows.  Only an old-format admission can be hidden like this. */
  function Hidden(m: Stores, gid: int): set<int> {
    set u | u in Holders(m.redis.admissions, gid) && Find(m.ledger, u, m.redis.admissions[u].id).Some?
            && m.ledger[u].mode == MySQLMode
  }

  lemma OccupyingSplits(m: Stores, gid: int)
    requires Coherent(m)
    ensures Occupying(m.ledger, gid) == Backed(m, gid) + Surplus(m, gid)
    ensures Backed(m, gid) !! Surplus(m, gid)
  {
    forall u | u in Backed(m, gid)
      ensures u in Occupying(m.ledger, gid) && u !in Surplus(m, gid)
    {
      HolderWithRowOccupies(m, u, gid);
    }
  }

  lemma HoldersSplitByRow(m: Stores, gid: int)
    ensures Holders(m.redis.admissions, gid) == Backed(m, gid) + Hidden(m, gid) + Unpersisted(m, gid)
    ensures Backed(m, gid) !! Hidden(m, gid) && (Backed(m, gid) + Hidden(m, gid)) !! Unpersisted(m, gid)
  {
  }

  /** Rows plus unpersisted admissions count every holder that is not hidden once, and the surplus
      rows on top. */
  lemma HoldersAreCounted(m: Stores, gid: int)
    requires Coherent(m)
    ensures |Occupying(m.ledger, gid)| + |Unpersisted(m, gid)| + |Hidden(m, gid)| == Held(m.redis, gid) + |Surplus(m, gid)|
  {
    OccupyingSplits(m, gid);
    HoldersSplitByRow(m, gid);
  }

  /** The recovery count is exactly holders plus surplus plus repeated SCAN returns, less what is
      hidden. */
  lemma SoldIsExact(m: Stores, scan: seq<int>, gid: int)
    requires Coherent(m) && Covers(m, scan)
    ensures Sold(m, scan, gid) + |Hidden(m, gid)| >= Held(m.redis, gid) + |Surplus(m, gid)|
    ensures Sold(m, scan, gid) + |Hidden(m, gid)| == Held(m.redis, gid) + |Surplus(m, gid)|
       <==> Distinct(CountedKeys(m, scan, gid))
  {
    HoldersAreCounted(m, gid);
    ElementsOf(CountedKeys(m, scan, gid));
    CountedElements(m, scan, gid);
    assert Elements(CountedKeys(m, scan, gid)) == Unpersisted(m, gid);
  }

  /** Restored stock and holders together stay within the baseline. */
  predicate WithinBaseline(m: Stores, scan: seq<int>, gid: int, count: nat) {
    Remaining(count, Sold(m, scan, gid)) + Held(m.redis, gid) <= count
  }

  /** Recovery oversells a gift exactly when it counts less than is held.  That needs more hidden
      holders than surplus rows: with no hidden holder it never happens, however often SCAN repeats a
      key and whatever has expired, and without repeated keys it happens exactly then. */
  lemma RecoveryNeverOversells(m: Stores, scan: seq<int>, gid: int, count: nat)
    requires Coherent(m) && Covers(m, scan)
    requires Held(m.redis, gid) <= count
    ensures WithinBaseline(m, scan, gid, count) <==> Held(m.redis, gid) <= Sold(m, scan, gid)
    ensures |Hidden(m, gid)| <= |Surplus(m, gid)| ==> WithinBaseline(m, scan, gid, count)
    ensures Distinct(CountedKeys(m, scan, gid)) ==>
              (WithinBaseline(m, scan, gid, count) <==> |Hidden(m, gid)| <= |Surplus(m, gid)|)
  {
    SoldIsExact(m, scan, gid);
  }

  predicate AdmissionStillThere(m: Stores, uid: int)
    requires uid in m.ledger
  {
    uid in m.redis.admissions && m.redis.admissions[uid].id == m.ledger[uid].id
  }

  /** With no expired admission the surplus is exactly the ledger lag. */
  lemma SurplusIsLag(m: Stores, gid: int)
    requires Coherent(m)
    requires forall u :: u in Occupying(m.ledger, gid) ==> AdmissionStillThere(m, u)
    ensures Surplus(m, gid) == Lagging(m, gid)
  {
    forall u | u in Occupying(m.ledger, gid)
      ensures IsSurplus(m, u, gid) <==> u in Lagging(m, gid)
    {
      assert AdmissionStillThere(m, u) && RowOk(m, u) && AdmissionRecorded(m, u);
    }
  }

  /** What recovery counts as sold when SCAN repeats no counted key and nothing has expired: the
      holders that are not hidden, and the rows whose cancellation is still owed. */
  lemma RecoveryValue(m: Stores, scan: seq<int>, gid: int)
    requires Coherent(m) && Covers(m, scan)
    requires Distinct(CountedKeys(m, scan, gid))
    requires forall u :: u in Occupying(m.ledger, gid) ==> AdmissionStillThere(m, u)
    ensures Sold(m, scan, gid) == Held(m.redis, gid) - |Hidden(m, gid)| + |Lagging(m, gid)|
  {
    SoldIsExact(m, scan, gid);
    SurplusIsLag(m, gid);
  }

  // ---------------------------------------------------------------- the loops

  /** Returned SCAN keys: a key whose suffix is not a number is skipped. */
  datatype ScannedKey = UserKey(uid: int) | Malformed

  function UsersOf(keys: seq<ScannedKey>): seq<int> {
    if keys == [] then []
    else (if keys[0].UserKey? then [keys[0].uid] else []) + UsersOf(keys[1..])
  }

  function Flatten(batches: seq<seq<ScannedKey>>): seq<ScannedKey> {
    if batches == [] then [] else batches[0] + Flatten(batches[1..])
  }

  function At(counts: map<int, nat>, gid: int): nat {
    if gid in counts then counts[gid] else 0
  }

  lemma {:induction false} UsersOfAppend(a: seq<ScannedKey>, b: seq<ScannedKey>)
    ensures UsersOf(a + b) == UsersOf(a) + UsersOf(b)
  {
    if a == [] {
      assert a + b == b;
    } else {
      UsersOfAppend(a[1..], b);
      assert (a + b)[1..] == a[1..] + b;
    }
  }

  lemma {:induction false} FlattenAppend(batches: seq<seq<ScannedKey>>, last: seq<ScannedKey>)
    ensures Flatten(batches + [last]) == Flatten(batches) + last
  {
    if batches == [] {
      assert [last][1..] == [];
    } else {
      FlattenAppend(batches[1..], last);
      assert (batches + [last])[1..] == batches[1..] + [last];
    }
  }

  lemma {:induction false} CountedAppend(m: Stores, a: seq<int>, b: seq<int>, gid: int)
    ensures CountedKeys(m, a + b, gid) == CountedKeys(m, a, gid) + CountedKeys(m, b, gid)
  {
    if a == [] {
      assert a + b == b;
    } else {
      CountedAppend(m, a[1..], b, gid);
      var head := if IsUnpersisted(m, a[0], gid) then [a[0]] else [];
      assert (a + b)[0] == a[0] && (a + b)[1..] == a[1..] + b;
      assert CountedKeys(m, a + b, gid) == head + CountedKeys(m, a[1..] + b, gid);
      assert CountedKeys(m, a, gid) == head + CountedKeys(m, a[1..], gid);
    }
  }

  /** One more scanned key adds at most itself. */
  lemma OneMoreKey(m: Stores, seen: seq<ScannedKey>, key: ScannedKey, gid: int)
    ensures |CountedKeys(m, UsersOf(seen + [key]), gid)|
         == |CountedKeys(m, UsersOf(seen), gid)| + if key.UserKey? && IsUnpersisted(m, key.uid, gid) then 1 else 0
  {
    UsersOfAppend(seen, [key]);
    assert UsersOf([key]) == if key.UserKey? then [key.uid] else [];
    CountedAppend(m, UsersOf(seen), UsersOf([key]), gid);
  }

  /** The SCAN loop over admission keys; `batches` is one whole cursor iteration. */
  method UnpersistedAdmissionCounts(m: Stores, batches: seq<seq<ScannedKey>>) returns (counts: map<int, nat>)
    ensures forall g :: At(counts, g) == |CountedKeys(m, UsersOf(Flatten(batches)), g)|
  {
    counts := map[];
    var cursor := 0;
    while cursor < |batches|
      invariant 0 <= cursor <= |batches|
      invariant forall g :: At(counts, g) == |CountedKeys(m, UsersOf(Flatten(batches[..cursor])), g)|
    {
      var keys := batches[cursor];
      ghost var before := Flatten(batches[..cursor]);
      assert before + keys[..0] == before;
      for i := 0 to |keys|
        invariant forall g :: At(counts, g) == |CountedKeys(m, UsersOf(before + keys[..i]), g)|
      {
        var key := keys[i];
        if key.UserKey? && key.uid in m.redis.admissions {
          var admission := m.redis.admissions[key.uid];
          if admission.state != Cancelled {
            var found := Find(m.ledger, key.uid, admission.id);
            if found.None? {
              counts := counts[admission.gift := At(counts, admission.gift) + 1];
            }
          }
        }
        forall g
          ensures At(counts, g) == |CountedKeys(m, UsersOf(before + keys[..i + 1]), g)|
        {
          assert before + keys[..i + 1] == (before + keys[..i]) + [key];
          OneMoreKey(m, before + keys[..i], key, g);
        }
      }
      assert keys[..|keys|] == keys;
      FlattenAppend(batches[..cursor], keys);
      assert batches[..cursor + 1] == batches[..cursor] + [keys];
      cursor := cursor + 1;
    }
    assert batches[..|batches|] == batches;
  }

  predicate Catalog(gifts: seq<Gift>) {
    forall i, j :: 0 <= i < j < |gifts| ==> gifts[i].id != gifts[j].id
  }

  /** GROUP BY gift over occupying Redis-mode rows; a gift without rows has no entry. */
  function CompletedOrderCounts(ledger: map<int, Row>): (counts: map<int, nat>)
    ensures forall g :: At(counts, g) == |Occupying(ledger, g)|
  {
    var gifts := set u | u in ledger :: ledger[u].gift;
    assert forall u :: u in ledger ==> ledger[u].gift in gifts;
    assert forall g :: g !in gifts ==> Occupying(ledger, g) == {};
    map g | g in gifts :: |Occupying(ledger, g)|
  }

  function Ids(gifts: seq<Gift>): set<int> {
    set gift | gift in gifts :: gift.id
  }

  function Rebuilt(count: nat, completed: map<int, nat>, unpersisted: map<int, nat>, gid: int): nat {
    Remaining(count, At(completed, gid) + At(unpersisted, gid))
  }

  /** The loop that writes every catalogue gift's remaining stock and collects the registry. */
  method WriteStock(store: RedisStore, gifts: seq<Gift>, completed: map<int, nat>, unpersisted: map<int, nat>)
    returns (registry: set<int>)
    requires Catalog(gifts)
    modifies store`stock
    ensures registry == Ids(gifts) && store.stock.Keys == registry
    ensures forall i :: 0 <= i < |gifts| ==>
              store.stock[gifts[i].id] == Rebuilt(gifts[i].count, completed, unpersisted, gifts[i].id)
  {
    registry := {};
    for i := 0 to |gifts|
      invariant registry == Ids(gifts[..i])
      invariant registry <= store.stock.Keys
      invariant forall k :: 0 <= k < i ==> gifts[k].id in registry
      invariant forall k :: 0 <= k < i ==>
                  store.stock[gifts[k].id] == Rebuilt(gifts[k].count, completed, unpersisted, gifts[k].id)
    {
      var gift := gifts[i];
      var sold := At(completed, gift.id) + At(unpersisted, gift.id);
      var remaining := gift.count - sold;
      if remaining < 0 {
        remaining := 0;
      }
      store.stock := store.stock[gift.id := remaining];
      registry := registry + {gift.id};
      assert gifts[..i + 1] == gifts[..i] + [gift];
    }
    assert gifts[..|gifts|] == gifts;
    store.stock := map g | g in store.stock && g in registry :: store.stock[g];
  }

  /** InitGiftInventory: count, write every catalogue gift's remaining stock, drop the stock keys
      of other gifts, rebuild the registry. */
  method InitGiftInventory(store: RedisStore, m: Stores, gifts: seq<Gift>, batches: seq<seq<ScannedKey>>)
    returns (registry: set<int>)
    requires store.Snapshot() == m.redis && Catalog(gifts)
    modifies store`stock
    ensures registry == Ids(gifts) && store.stock.Keys == registry
    ensures forall i :: 0 <= i < |gifts| ==>
              store.stock[gifts[i].id] == Remaining(gifts[i].count, Sold(m, UsersOf(Flatten(batches)), gifts[i].id))
  {
    var completed := CompletedOrderCounts(m.ledger);
    var unpersisted := UnpersistedAdmissionCounts(m, batches);
    registry := WriteStock(store, gifts, completed, unpersisted);
  }
}
