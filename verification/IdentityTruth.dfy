/** What the audit's index says, compared with looking at every pair of rows. */
module IdentityTruth {
  import opened Sequences
  import opened IdentityAudit

  function HasKey(key: Row -> Option<string>, k: string): Row -> bool
  {
    (r: Row) => key(r) == Some(k)
  }

  /** The identifiers of all rows with key `k`, in the order of the rows. */
  function Class(key: Row -> Option<string>, rows: seq<Row>, k: string): seq<string>
  {
    Ids(Filter(HasKey(key, k), rows))
  }

  lemma ClassSnoc(key: Row -> Option<string>, rows: seq<Row>, k: string)
    requires rows != []
    ensures var n := |rows| - 1;
      Class(key, rows, k) == Class(key, rows[..n], k) + if key(rows[n]) == Some(k) then [rows[n].id] else []
  {
  }

  ghost predicate DistinctKeys(buckets: seq<Bucket>)
  {
    forall i, j :: 0 <= i < j < |buckets| ==> buckets[i].key != buckets[j].key
  }

  /** Every bucket is a whole class, no key has two buckets, and every key that occurs has one. */
  ghost predicate Indexes(buckets: seq<Bucket>, key: Row -> Option<string>, rows: seq<Row>)
  {
    && DistinctKeys(buckets)
    && (forall i :: 0 <= i < |buckets| ==> buckets[i].ids == Class(key, rows, buckets[i].key))
    && (forall k :: Class(key, rows, k) != [] ==> Find(buckets, k).Some?)
  }

  lemma PutKeys(buckets: seq<Bucket>, key: string, id: string)
    requires DistinctKeys(buckets)
    ensures DistinctKeys(Put(buckets, key, id))
    ensures forall k :: Find(Put(buckets, key, id), k).Some? <==> k == key || Find(buckets, k).Some?
  {
    var after, at := Put(buckets, key, id), Find(buckets, key);
    forall k ensures Find(after, k).Some? <==> k == key || Find(buckets, k).Some? {
      if Find(buckets, k).Some? {
        assert after[Find(buckets, k).value].key == k;
      }
      if k == key {
        assert after[if at.Some? then at.value else |buckets|].key == key;
      }
      if Find(after, k).Some? && k != key {
        assert buckets[Find(after, k).value].key == k;
      }
    }
  }

  lemma {:induction false} GroupedIndexes(key: Row -> Option<string>, rows: seq<Row>)
    ensures Indexes(Grouped(key, rows), key, rows)
  {
    hide Put, Find;
    if rows != [] {
      var n := |rows| - 1;
      GroupedIndexes(key, rows[..n]);
      var before, after := Grouped(key, rows[..n]), Grouped(key, rows);
      forall k ensures Class(key, rows, k) ==
        Class(key, rows[..n], k) + if key(rows[n]) == Some(k) then [rows[n].id] else []
      {
        ClassSnoc(key, rows, k);
      }
      if key(rows[n]).Some? {
        PutIndexes(key, rows, before);
      }
    }
  }

  lemma PutIndexes(key: Row -> Option<string>, rows: seq<Row>, before: seq<Bucket>)
    requires rows != [] && key(rows[|rows| - 1]).Some? && Indexes(before, key, rows[..|rows| - 1])
    ensures Indexes(Put(before, key(rows[|rows| - 1]).value, rows[|rows| - 1].id), key, rows)
  {
    var n := |rows| - 1;
    var k, id := key(rows[n]).value, rows[n].id;
    var after := Put(before, k, id);
    PutKeys(before, k, id);
    forall other ensures Class(key, rows, other) ==
      Class(key, rows[..n], other) + if k == other then [id] else []
    {
      ClassSnoc(key, rows, other);
    }
    if Find(before, k).None? {
      assert Class(key, rows[..n], k) == [];
    }
    forall i | 0 <= i < |after| ensures after[i].ids == Class(key, rows, after[i].key) {
    }
  }

  /** A row with key `k` comes before every row with key `l`. */
  ghost predicate SeenBefore(key: Row -> Option<string>, rows: seq<Row>, k: string, l: string)
  {
    exists a :: 0 <= a < |rows| && key(rows[a]) == Some(k) && forall b :: 0 <= b <= a ==> key(rows[b]) != Some(l)
  }

  lemma SeenStays(key: Row -> Option<string>, rows: seq<Row>, k: string, l: string)
    requires rows != [] && SeenBefore(key, rows[..|rows| - 1], k, l)
    ensures SeenBefore(key, rows, k, l)
  {
    var front := rows[..|rows| - 1];
    var a :| 0 <= a < |front| && key(front[a]) == Some(k) && forall b :: 0 <= b <= a ==> key(front[b]) != Some(l);
    assert key(rows[a]) == Some(k);
    forall b | 0 <= b <= a ensures key(rows[b]) != Some(l) {
      assert front[b] == rows[b];
    }
  }

  /** A key that is new in the last row is seen after all others. */
  lemma NewIsLast(key: Row -> Option<string>, rows: seq<Row>, k: string, l: string)
    requires rows != [] && key(rows[|rows| - 1]) == Some(l)
    requires Class(key, rows[..|rows| - 1], k) != [] && Class(key, rows[..|rows| - 1], l) == []
    ensures SeenBefore(key, rows, k, l)
  {
    var front := rows[..|rows| - 1];
    ClassSize(key, front, k);
    ClassSize(key, front, l);
    var a :| 0 <= a < |front| && key(front[a]) == Some(k);
    assert key(rows[a]) == Some(k);
    forall b | 0 <= b <= a ensures key(rows[b]) != Some(l) {
      assert front[b] == rows[b];
    }
  }

  /** The buckets stand in the order in which their keys first occur. */
  lemma {:induction false} GroupedInOrder(key: Row -> Option<string>, rows: seq<Row>)
    ensures var buckets := Grouped(key, rows);
      forall i, j :: 0 <= i < j < |buckets| ==> SeenBefore(key, rows, buckets[i].key, buckets[j].key)
  {
    hide Put, Class, SeenBefore;
    if rows != [] {
      var n := |rows| - 1;
      var before, after := Grouped(key, rows[..n]), Grouped(key, rows);
      GroupedInOrder(key, rows[..n]);
      GroupedIndexes(key, rows[..n]);
      forall i, j | 0 <= i < j < |before| ensures SeenBefore(key, rows, before[i].key, before[j].key) {
        SeenStays(key, rows, before[i].key, before[j].key);
      }
      if key(rows[n]).Some? {
        var k, id := key(rows[n]).value, rows[n].id;
        PutAtEnd(before, k, id);
        if Find(before, k).None? {
          forall i | 0 <= i < |before| ensures SeenBefore(key, rows, before[i].key, k) {
            BucketFilled(key, rows[..n], i);
            NewIsLast(key, rows, before[i].key, k);
          }
        }
      }
    }
  }

  lemma PutAtEnd(buckets: seq<Bucket>, key: string, id: string)
    ensures var after := Put(buckets, key, id);
      && |after| == |buckets| + (if Find(buckets, key).Some? then 0 else 1)
      && (forall i :: 0 <= i < |buckets| ==> after[i].key == buckets[i].key)
      && (Find(buckets, key).None? ==> after[|buckets|].key == key)
  {
  }

  /** No bucket is empty. */
  lemma {:induction false} BucketFilled(key: Row -> Option<string>, rows: seq<Row>, i: nat)
    requires i < |Grouped(key, rows)|
    ensures Class(key, rows, Grouped(key, rows)[i].key) != []
  {
    hide Class;
    GroupedIndexes(key, rows);
    IdsFilled(key, rows, i);
  }

  lemma {:induction false} IdsFilled(key: Row -> Option<string>, rows: seq<Row>, i: nat)
    requires i < |Grouped(key, rows)|
    ensures Grouped(key, rows)[i].ids != []
  {
    var n := |rows| - 1;
    if i < |Grouped(key, rows[..n])| {
      IdsFilled(key, rows[..n], i);
    }
  }

  // Collisions.

  lemma {:induction false} ClassSize(key: Row -> Option<string>, rows: seq<Row>, k: string)
    ensures |Class(key, rows, k)| >= 1 <==> exists i :: 0 <= i < |rows| && key(rows[i]) == Some(k)
    ensures |Class(key, rows, k)| >= 2 <==>
      exists i, j :: 0 <= i < j < |rows| && key(rows[i]) == Some(k) && key(rows[j]) == Some(k)
  {
    if rows != [] {
      var n := |rows| - 1;
      ClassSize(key, rows[..n], k);
      ClassSnoc(key, rows, k);
      assert forall i :: 0 <= i < n ==> rows[..n][i] == rows[i];
      if |Class(key, rows[..n], k)| >= 1 && key(rows[n]) == Some(k) {
        var i :| 0 <= i < n && key(rows[i]) == Some(k);
        assert 0 <= i < n < |rows|;
      }
    }
  }

  /** The reported buckets are exactly the classes of two or more rows, one bucket a class. */
  lemma CollisionsExactly(key: Row -> Option<string>, rows: seq<Row>, b: Bucket)
    ensures b in Filter(Crowded, Grouped(key, rows)) <==> b.ids == Class(key, rows, b.key) && |b.ids| >= 2
    ensures DistinctKeys(Filter(Crowded, Grouped(key, rows)))
  {
    hide Grouped;
    GroupedIndexes(key, rows);
    var buckets := Grouped(key, rows);
    FilterMembers(Crowded, buckets, b);
    if b.ids == Class(key, rows, b.key) && |b.ids| >= 2 {
      var at := Find(buckets, b.key);
      assert at.Some? && buckets[at.value] == b;
    }
    KeysStayDistinct(Crowded, buckets);
  }

  lemma {:induction false} KeysStayDistinct(p: Bucket -> bool, buckets: seq<Bucket>)
    requires DistinctKeys(buckets)
    ensures DistinctKeys(Filter(p, buckets))
  {
    if buckets != [] {
      var n := |buckets| - 1;
      KeysStayDistinct(p, buckets[..n]);
      var r := Filter(p, buckets[..n]);
      forall i | 0 <= i < |r| ensures r[i].key != buckets[n].key {
        FilterMembers(p, buckets[..n], r[i]);
      }
    }
  }

  /** Two rows share a key. */
  ghost predicate Clash(key: Row -> Option<string>, rows: seq<Row>)
  {
    exists i, j :: 0 <= i < j < |rows| && key(rows[i]).Some? && key(rows[i]) == key(rows[j])
  }

  lemma NoCollisions(key: Row -> Option<string>, rows: seq<Row>)
    ensures Filter(Crowded, Grouped(key, rows)) == [] <==> !Clash(key, rows)
  {
    hide Grouped, Filter, Class;
    var found := Filter(Crowded, Grouped(key, rows));
    if found != [] {
      var b := found[0];
      CollisionsExactly(key, rows, b);
      ClassSize(key, rows, b.key);
    }
    if Clash(key, rows) {
      var i, j :| 0 <= i < j < |rows| && key(rows[i]).Some? && key(rows[i]) == key(rows[j]);
      var k := key(rows[i]).value;
      ClassSize(key, rows, k);
      CollisionsExactly(key, rows, Bucket(k, Class(key, rows, k)));
    }
  }

  lemma {:induction false} SameFilter<T>(p: T -> bool, q: T -> bool, s: seq<T>)
    requires forall x :: x in s ==> (p(x) <==> q(x))
    ensures Filter(p, s) == Filter(q, s)
  {
    if s != [] {
      var n := |s| - 1;
      assert forall x :: x in s[..n] ==> x in s;
      SameFilter(p, q, s[..n]);
      assert s[n] in s;
    }
  }

  /** The rows whose e-mail, stripped and case-folded, is `k`. */
  function EmailIs(lib: Library, k: string): Row -> bool
  {
    (r: Row) => r.email.Some? && lib.strip(r.email.value) != "" && lib.casefold(lib.strip(r.email.value)) == k
  }

  function UsernameIs(lib: Library, k: string): Row -> bool
  {
    (r: Row) => r.username.Some? && lib.strip(r.username.value) != "" && lib.casefold(lib.strip(r.username.value)) == k
  }

  /** The rows whose phone, stripped, is a valid number with the canonical form `k`. */
  function PhoneIs(lib: Library, k: string): Row -> bool
  {
    (r: Row) => r.phone.Some? && lib.strip(r.phone.value) != "" && lib.canonical(lib.strip(r.phone.value)) == Some(k)
  }

  lemma EmailMeans(lib: Library, k: string, r: Row)
    ensures EmailIs(lib, k)(r) <==> EmailKey(lib)(r) == Some(k)
  {
  }

  lemma UsernameMeans(lib: Library, k: string, r: Row)
    ensures UsernameIs(lib, k)(r) <==> UsernameKey(lib)(r) == Some(k)
  {
  }

  lemma PhoneMeans(lib: Library, k: string, r: Row)
    ensures PhoneIs(lib, k)(r) <==> PhoneKey(lib)(r) == Some(k)
  {
    assert Blank(lib, r.phone) ==> PhoneKey(lib)(r) == None;
  }

  /** The e-mail lists of the result: the identifiers of all rows with one e-mail, where there are two or more. */
  lemma EmailCollisionsExactly(lib: Library, rows: seq<Row>, ids: seq<string>)
    ensures ids in Audit(lib, rows).emailCollisions <==>
      |ids| >= 2 && exists k :: ids == Ids(Filter(EmailIs(lib, k), rows))
  {
    hide Filter, Grouped;
    ListsExactly(EmailKey(lib), rows, ids);
    forall k ensures Ids(Filter(EmailIs(lib, k), rows)) == Class(EmailKey(lib), rows, k) {
      forall r ensures EmailIs(lib, k)(r) <==> HasKey(EmailKey(lib), k)(r) {
        EmailMeans(lib, k, r);
      }
      SameFilter(EmailIs(lib, k), HasKey(EmailKey(lib), k), rows);
    }
  }

  /** The same for user names. */
  lemma UsernameCollisionsExactly(lib: Library, rows: seq<Row>, ids: seq<string>)
    ensures ids in Audit(lib, rows).usernameCollisions <==>
      |ids| >= 2 && exists k :: ids == Ids(Filter(UsernameIs(lib, k), rows))
  {
    hide Filter, Grouped;
    ListsExactly(UsernameKey(lib), rows, ids);
    forall k ensures Ids(Filter(UsernameIs(lib, k), rows)) == Class(UsernameKey(lib), rows, k) {
      forall r ensures UsernameIs(lib, k)(r) <==> HasKey(UsernameKey(lib), k)(r) {
        UsernameMeans(lib, k, r);
      }
      SameFilter(UsernameIs(lib, k), HasKey(UsernameKey(lib), k), rows);
    }
  }

  /** The phone entries: the identifiers of two or more rows with one number, under its mask. */
  lemma PhoneCollisionsExactly(lib: Library, rows: seq<Row>, b: Bucket)
    ensures b in Audit(lib, rows).phoneCollisions <==>
      |b.ids| >= 2 && exists k :: b.key == Mask(k) && b.ids == Ids(Filter(PhoneIs(lib, k), rows))
  {
    hide Grouped, Filter, Mask;
    forall k ensures Ids(Filter(PhoneIs(lib, k), rows)) == Class(PhoneKey(lib), rows, k) {
      forall r ensures PhoneIs(lib, k)(r) <==> HasKey(PhoneKey(lib), k)(r) {
        PhoneMeans(lib, k, r);
      }
      SameFilter(PhoneIs(lib, k), HasKey(PhoneKey(lib), k), rows);
    }
    EntriesExactly(PhoneKey(lib), rows, b);
  }

  lemma EntriesExactly(key: Row -> Option<string>, rows: seq<Row>, b: Bucket)
    ensures b in Masked(Filter(Crowded, Grouped(key, rows))) <==>
      |b.ids| >= 2 && exists k :: b.key == Mask(k) && b.ids == Class(key, rows, k)
  {
    hide Grouped, Filter, Class, Mask;
    var found := Filter(Crowded, Grouped(key, rows));
    if b in Masked(found) {
      var i :| 0 <= i < |found| && Masked(found)[i] == b;
      CollisionsExactly(key, rows, found[i]);
    }
    if |b.ids| >= 2 && exists k :: b.key == Mask(k) && b.ids == Class(key, rows, k) {
      var k :| b.key == Mask(k) && b.ids == Class(key, rows, k);
      CollisionsExactly(key, rows, Bucket(k, b.ids));
      var i :| 0 <= i < |found| && found[i] == Bucket(k, b.ids);
      assert Masked(found)[i] == b;
    }
  }

  lemma ListsExactly(key: Row -> Option<string>, rows: seq<Row>, ids: seq<string>)
    ensures ids in IdLists(Filter(Crowded, Grouped(key, rows))) <==> |ids| >= 2 && exists k :: ids == Class(key, rows, k)
  {
    hide Grouped, Filter, Class;
    var found := Filter(Crowded, Grouped(key, rows));
    if ids in IdLists(found) {
      var i :| 0 <= i < |found| && IdLists(found)[i] == ids;
      CollisionsExactly(key, rows, found[i]);
    }
    if |ids| >= 2 && exists k :: ids == Class(key, rows, k) {
      var k :| ids == Class(key, rows, k);
      CollisionsExactly(key, rows, Bucket(k, ids));
      var i :| 0 <= i < |found| && found[i] == Bucket(k, ids);
      assert IdLists(found)[i] == ids;
    }
  }

  // The verdict.

  /** Said row by row and pair by pair: nothing blank, every phone given is a valid number in canonical form, and no
      two rows share an e-mail, a user name or a number. */
  ghost predicate Clean(lib: Library, rows: seq<Row>)
  {
    && (forall i :: 0 <= i < |rows| ==> SoundRow(lib, rows[i]))
    && (forall i, j :: 0 <= i < j < |rows| ==> Apart(lib, rows[i], rows[j]))
  }

  /** The two rows share no e-mail and no user name, case aside, and no number. */
  ghost predicate Apart(lib: Library, a: Row, b: Row)
  {
    && (a.email.Some? && b.email.Some? ==>
         lib.casefold(lib.strip(a.email.value)) != lib.casefold(lib.strip(b.email.value)))
    && (a.username.Some? && b.username.Some? ==>
         lib.casefold(lib.strip(a.username.value)) != lib.casefold(lib.strip(b.username.value)))
    && (a.phone.Some? && b.phone.Some? ==>
         lib.canonical(lib.strip(a.phone.value)) != lib.canonical(lib.strip(b.phone.value)))
  }

  ghost predicate SoundRow(lib: Library, r: Row)
  {
    && r.email.Some? && lib.strip(r.email.value) != ""
    && r.username.Some? && lib.strip(r.username.value) != ""
    && (r.phone.Some? ==>
      && lib.strip(r.phone.value) != ""
      && lib.canonical(lib.strip(r.phone.value)) == Some(lib.strip(r.phone.value)))
  }

  lemma RowFlags(lib: Library, r: Row)
    ensures SoundRow(lib, r) <==>
      !NoEmail(lib)(r) && !NoUsername(lib)(r) && !BlankPhone(lib)(r) && !InvalidPhone(lib)(r) && !OddPhone(lib)(r)
  {
  }

  lemma {:induction false} NoneFlagged(p: Row -> bool, rows: seq<Row>)
    ensures Filter(p, rows) == [] <==> forall i :: 0 <= i < |rows| ==> !p(rows[i])
  {
    if rows != [] {
      NoneFlagged(p, rows[..|rows| - 1]);
    }
  }

  /** The flags of the result are empty exactly when every row is sound. */
  lemma FlagsExactly(lib: Library, rows: seq<Row>)
    ensures (
        && Filter(InvalidPhone(lib), rows) == [] && Filter(OddPhone(lib), rows) == []
        && Filter(BlankPhone(lib), rows) == []
        && Filter(NoEmail(lib), rows) == [] && Filter(NoUsername(lib), rows) == []
      ) <==> forall i :: 0 <= i < |rows| ==> SoundRow(lib, rows[i])
  {
    hide SoundRow, Filter;
    NoneFlagged(InvalidPhone(lib), rows);
    NoneFlagged(OddPhone(lib), rows);
    NoneFlagged(BlankPhone(lib), rows);
    NoneFlagged(NoEmail(lib), rows);
    NoneFlagged(NoUsername(lib), rows);
    forall i | 0 <= i < |rows| ensures SoundRow(lib, rows[i]) <==>
      !NoEmail(lib)(rows[i]) && !NoUsername(lib)(rows[i]) && !BlankPhone(lib)(rows[i])
      && !InvalidPhone(lib)(rows[i]) && !OddPhone(lib)(rows[i])
    {
      RowFlags(lib, rows[i]);
    }
  }

  lemma SoundKeys(lib: Library, a: Row, b: Row)
    requires SoundRow(lib, a) && SoundRow(lib, b)
    ensures Apart(lib, a, b) <==>
      !(EmailKey(lib)(a).Some? && EmailKey(lib)(a) == EmailKey(lib)(b))
      && !(UsernameKey(lib)(a).Some? && UsernameKey(lib)(a) == UsernameKey(lib)(b))
      && !(PhoneKey(lib)(a).Some? && PhoneKey(lib)(a) == PhoneKey(lib)(b))
  {
    assert Blank(lib, a.phone) ==> PhoneKey(lib)(a) == None;
    assert Blank(lib, b.phone) ==> PhoneKey(lib)(b) == None;
  }

  /** The audit blocks exactly when the pairwise truth finds something. */
  lemma BlockingExactly(lib: Library, rows: seq<Row>)
    ensures Blocking(Audit(lib, rows)) <==> !Clean(lib, rows)
  {
    hide Grouped, Filter, SoundRow, Apart;
    NoCollisions(EmailKey(lib), rows);
    NoCollisions(UsernameKey(lib), rows);
    NoCollisions(PhoneKey(lib), rows);
    FlagsExactly(lib, rows);
    if forall i :: 0 <= i < |rows| ==> SoundRow(lib, rows[i]) {
      forall i, j | 0 <= i < j < |rows|
        ensures Apart(lib, rows[i], rows[j]) <==>
          !(EmailKey(lib)(rows[i]).Some? && EmailKey(lib)(rows[i]) == EmailKey(lib)(rows[j]))
          && !(UsernameKey(lib)(rows[i]).Some? && UsernameKey(lib)(rows[i]) == UsernameKey(lib)(rows[j]))
          && !(PhoneKey(lib)(rows[i]).Some? && PhoneKey(lib)(rows[i]) == PhoneKey(lib)(rows[j]))
      {
        SoundKeys(lib, rows[i], rows[j]);
      }
    }
  }

  // The lists of single rows.

  /** Row `i` passes and has the identifier. */
  ghost predicate Named(p: Row -> bool, rows: seq<Row>, id: string, i: int)
  {
    0 <= i < |rows| && p(rows[i]) && rows[i].id == id
  }

  lemma ListedIds(p: Row -> bool, rows: seq<Row>, id: string)
    ensures id in Ids(Filter(p, rows)) <==> exists i :: Named(p, rows, id, i)
  {
    hide Filter;
    var f := Filter(p, rows);
    if id in Ids(f) {
      var k :| 0 <= k < |f| && Ids(f)[k] == id;
      FilterMembers(p, rows, f[k]);
      var i :| 0 <= i < |rows| && rows[i] == f[k];
      assert Named(p, rows, id, i);
    }
    if i :| Named(p, rows, id, i) {
      FilterMembers(p, rows, rows[i]);
      var k :| 0 <= k < |f| && f[k] == rows[i];
      assert Ids(f)[k] == id;
    }
  }

  /** The lists of identifiers name the rows without an e-mail, without a user name, and with an empty phone. */
  lemma BlanksExactly(lib: Library, rows: seq<Row>, id: string)
    ensures id in Audit(lib, rows).blankEmails <==>
      exists i :: 0 <= i < |rows| && rows[i].id == id && (rows[i].email.Some? ==> lib.strip(rows[i].email.value) == "")
    ensures id in Audit(lib, rows).blankUsernames <==>
      exists i :: 0 <= i < |rows| && rows[i].id == id
        && (rows[i].username.Some? ==> lib.strip(rows[i].username.value) == "")
    ensures id in Audit(lib, rows).blankPhones <==>
      exists i :: 0 <= i < |rows| && rows[i].id == id && rows[i].phone.Some? && lib.strip(rows[i].phone.value) == ""
  {
    hide Filter, Grouped;
    ListedIds(NoEmail(lib), rows, id);
    ListedIds(NoUsername(lib), rows, id);
    ListedIds(BlankPhone(lib), rows, id);
    forall i | 0 <= i < |rows|
      ensures Named(NoEmail(lib), rows, id, i) <==>
        rows[i].id == id && (rows[i].email.Some? ==> lib.strip(rows[i].email.value) == "")
      ensures Named(NoUsername(lib), rows, id, i) <==>
        rows[i].id == id && (rows[i].username.Some? ==> lib.strip(rows[i].username.value) == "")
      ensures Named(BlankPhone(lib), rows, id, i) <==>
        rows[i].id == id && rows[i].phone.Some? && lib.strip(rows[i].phone.value) == ""
    {
    }
  }

  /** Row `i` gives a phone that is not a valid number; the note shows it masked. */
  ghost predicate NotedInvalid(lib: Library, r: Row, n: PhoneNote)
  {
    && r.id == n.id && r.phone.Some? && n.phone == Mask(r.phone.value)
    && lib.strip(r.phone.value) != "" && lib.canonical(lib.strip(r.phone.value)) == None
  }

  /** Row `i` gives a valid number that is not written in its canonical form; the note shows both masked. */
  ghost predicate NotedOdd(lib: Library, r: Row, n: CanonicalNote)
  {
    && r.id == n.id && r.phone.Some? && n.phone == Mask(r.phone.value) && lib.strip(r.phone.value) != ""
    && match lib.canonical(lib.strip(r.phone.value))
       case None => false
       case Some(k) => k != lib.strip(r.phone.value) && n.canonical == Mask(k)
  }

  lemma InvalidMeans(lib: Library, r: Row, n: PhoneNote)
    ensures NotedInvalid(lib, r, n) <==> InvalidPhone(lib)(r) && n == PhoneNote(r.id, Mask(PhoneText(r)))
  {
    hide Mask;
    assert Blank(lib, r.phone) ==> !InvalidPhone(lib)(r);
  }

  lemma OddMeans(lib: Library, r: Row, n: CanonicalNote)
    ensures NotedOdd(lib, r, n) <==> OddPhone(lib)(r) && n == NoteOf(lib, r)
  {
    hide Mask;
    assert Blank(lib, r.phone) ==> !OddPhone(lib)(r);
  }

  /** The notes on phones that are not valid numbers: one for each such row. */
  lemma InvalidExactly(lib: Library, rows: seq<Row>, n: PhoneNote)
    ensures n in Audit(lib, rows).invalidPhones <==> exists i :: 0 <= i < |rows| && NotedInvalid(lib, rows[i], n)
  {
    hide Filter, Grouped, Mask, NotedInvalid, InvalidPhone;
    var f := Filter(InvalidPhone(lib), rows);
    if n in PhoneNotes(f) {
      var k :| 0 <= k < |f| && PhoneNotes(f)[k] == n;
      FilterMembers(InvalidPhone(lib), rows, f[k]);
      var i :| 0 <= i < |rows| && rows[i] == f[k];
      InvalidMeans(lib, rows[i], n);
    }
    if i :| 0 <= i < |rows| && NotedInvalid(lib, rows[i], n) {
      InvalidMeans(lib, rows[i], n);
      FilterMembers(InvalidPhone(lib), rows, rows[i]);
      var k :| 0 <= k < |f| && f[k] == rows[i];
      assert PhoneNotes(f)[k] == n;
    }
  }

  /** The notes on valid numbers in another than the canonical form: one for each such row. */
  lemma NoncanonicalExactly(lib: Library, rows: seq<Row>, n: CanonicalNote)
    ensures n in Audit(lib, rows).noncanonicalPhones <==> exists i :: 0 <= i < |rows| && NotedOdd(lib, rows[i], n)
  {
    hide Filter, Grouped, Mask, NotedOdd, OddPhone, NoteOf;
    var f := Filter(OddPhone(lib), rows);
    if n in CanonicalNotes(lib, f) {
      var k :| 0 <= k < |f| && CanonicalNotes(lib, f)[k] == n;
      FilterMembers(OddPhone(lib), rows, f[k]);
      var i :| 0 <= i < |rows| && rows[i] == f[k];
      OddMeans(lib, rows[i], n);
    }
    if i :| 0 <= i < |rows| && NotedOdd(lib, rows[i], n) {
      OddMeans(lib, rows[i], n);
      FilterMembers(OddPhone(lib), rows, rows[i]);
      var k :| 0 <= k < |f| && f[k] == rows[i];
      assert CanonicalNotes(lib, f)[k] == n;
    }
  }
}
