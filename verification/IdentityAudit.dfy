/** The audit of user identities: rows are grouped by e-mail, user name and phone number in one pass. */
module IdentityAudit {
  import opened Sequences

  /** A user row; each identity may be missing. */
  datatype Row = Row(id: string, email: Option<string>, username: Option<string>, phone: Option<string>)

  /** Text handling that belongs to Python and to the phone library: stripping white space, case folding, and the
      canonical form of a number, if it is a valid international one. */
  datatype Library = Library(strip: string -> string, casefold: string -> string, canonical: string -> Option<string>)

  datatype Bucket = Bucket(key: string, ids: seq<string>)

  datatype PhoneNote = PhoneNote(id: string, phone: string)

  datatype CanonicalNote = CanonicalNote(id: string, phone: string, canonical: string)

  datatype Result = Result(
    emailCollisions: seq<seq<string>>, usernameCollisions: seq<seq<string>>, phoneCollisions: seq<Bucket>,
    invalidPhones: seq<PhoneNote>, noncanonicalPhones: seq<CanonicalNote>, blankPhones: seq<string>,
    blankEmails: seq<string>, blankUsernames: seq<string>)

  /** Some list of the result is not empty. */
  predicate Blocking(r: Result)
  {
    || r.emailCollisions != [] || r.usernameCollisions != [] || r.phoneCollisions != []
    || r.invalidPhones != [] || r.noncanonicalPhones != [] || r.blankPhones != []
    || r.blankEmails != [] || r.blankUsernames != []
  }

  // Masking.

  function Stars(n: nat): (r: string)
    ensures |r| == n
  {
    seq(n, i => '*')
  }

  /** `mask_phone` */
  function Mask(phone: string): (r: string)
    ensures |r| == |phone|
  {
    if |phone| <= 4 then Stars(|phone|) else Stars(|phone| - 4) + phone[|phone| - 4..]
  }

  /** Position by position: a star, or one of the last four characters of a longer value. */
  lemma MaskShows(phone: string, i: nat)
    requires i < |phone|
    ensures Mask(phone)[i] == if |phone| > 4 && |phone| - i <= 4 then phone[i] else '*'
  {
  }

  /** A mask tells nothing but the length and, of a longer value, the last four characters. */
  lemma MaskHides(a: string, b: string)
    requires |a| == |b|
    ensures Mask(a) == Mask(b) <==> |a| <= 4 || a[|a| - 4..] == b[|b| - 4..]
  {
    if |a| > 4 {
      assert Mask(a)[|a| - 4..] == a[|a| - 4..];
      assert Mask(b)[|b| - 4..] == b[|b| - 4..];
    }
  }

  // The identities of a row.

  predicate Blank(lib: Library, value: Option<string>)
  {
    value.None? || lib.strip(value.value) == ""
  }

  function Folded(lib: Library, value: Option<string>): Option<string>
  {
    if Blank(lib, value) then None else Some(lib.casefold(lib.strip(value.value)))
  }

  function EmailKey(lib: Library): Row -> Option<string>
  {
    (r: Row) => Folded(lib, r.email)
  }

  function UsernameKey(lib: Library): Row -> Option<string>
  {
    (r: Row) => Folded(lib, r.username)
  }

  function PhoneKey(lib: Library): Row -> Option<string>
  {
    (r: Row) => if Blank(lib, r.phone) then None else lib.canonical(lib.strip(r.phone.value))
  }

  function NoEmail(lib: Library): Row -> bool
  {
    (r: Row) => Blank(lib, r.email)
  }

  function NoUsername(lib: Library): Row -> bool
  {
    (r: Row) => Blank(lib, r.username)
  }

  function BlankPhone(lib: Library): Row -> bool
  {
    (r: Row) => r.phone.Some? && Blank(lib, r.phone)
  }

  function InvalidPhone(lib: Library): Row -> bool
  {
    (r: Row) => !Blank(lib, r.phone) && lib.canonical(lib.strip(r.phone.value)).None?
  }

  function OddPhone(lib: Library): Row -> bool
  {
    (r: Row) => !Blank(lib, r.phone)
      && lib.canonical(lib.strip(r.phone.value)).Some?
      && lib.canonical(lib.strip(r.phone.value)).value != lib.strip(r.phone.value)
  }

  // Lists of the result, as functions of the rows.

  function Ids(rows: seq<Row>): (r: seq<string>)
    ensures |r| == |rows|
  {
    seq(|rows|, i requires 0 <= i < |rows| => rows[i].id)
  }

  function PhoneText(r: Row): string
  {
    if r.phone.Some? then r.phone.value else ""
  }

  function PhoneNotes(rows: seq<Row>): (r: seq<PhoneNote>)
    ensures |r| == |rows|
  {
    seq(|rows|, i requires 0 <= i < |rows| => PhoneNote(rows[i].id, Mask(PhoneText(rows[i]))))
  }

  function NoteOf(lib: Library, r: Row): CanonicalNote
  {
    var key := PhoneKey(lib)(r);
    CanonicalNote(r.id, Mask(PhoneText(r)), Mask(if key.Some? then key.value else ""))
  }

  function CanonicalNotes(lib: Library, rows: seq<Row>): (r: seq<CanonicalNote>)
    ensures |r| == |rows|
  {
    seq(|rows|, i requires 0 <= i < |rows| => NoteOf(lib, rows[i]))
  }

  /** Where a key has its bucket. */
  function Find(buckets: seq<Bucket>, key: string): (r: Option<nat>)
    ensures r.Some? ==> r.value < |buckets| && buckets[r.value].key == key
    ensures r.None? ==> forall i :: 0 <= i < |buckets| ==> buckets[i].key != key
  {
    if buckets == [] then None
    else
      var n := |buckets| - 1;
      var before := Find(buckets[..n], key);
      if before.Some? then before else if buckets[n].key == key then Some(n) else None
  }

  /** `defaultdict(list)[key].append(id)`: dictionaries keep the order of first insertion. */
  function Put(buckets: seq<Bucket>, key: string, id: string): seq<Bucket>
  {
    var at := Find(buckets, key);
    if at.Some? then buckets[at.value := Bucket(key, buckets[at.value].ids + [id])]
    else buckets + [Bucket(key, [id])]
  }

  function Grouped(key: Row -> Option<string>, rows: seq<Row>): seq<Bucket>
  {
    if rows == [] then []
    else
      var n := |rows| - 1;
      var before := Grouped(key, rows[..n]);
      var k := key(rows[n]);
      if k.Some? then Put(before, k.value, rows[n].id) else before
  }

  predicate Crowded(b: Bucket) { |b.ids| > 1 }

  function IdLists(buckets: seq<Bucket>): (r: seq<seq<string>>)
    ensures |r| == |buckets|
  {
    seq(|buckets|, i requires 0 <= i < |buckets| => buckets[i].ids)
  }

  function Masked(buckets: seq<Bucket>): (r: seq<Bucket>)
    ensures |r| == |buckets|
  {
    seq(|buckets|, i requires 0 <= i < |buckets| => Bucket(Mask(buckets[i].key), buckets[i].ids))
  }

  function Audit(lib: Library, rows: seq<Row>): Result
  {
    Result(
      IdLists(Filter(Crowded, Grouped(EmailKey(lib), rows))),
      IdLists(Filter(Crowded, Grouped(UsernameKey(lib), rows))),
      Masked(Filter(Crowded, Grouped(PhoneKey(lib), rows))),
      PhoneNotes(Filter(InvalidPhone(lib), rows)),
      CanonicalNotes(lib, Filter(OddPhone(lib), rows)),
      Ids(Filter(BlankPhone(lib), rows)),
      Ids(Filter(NoEmail(lib), rows)),
      Ids(Filter(NoUsername(lib), rows)))
  }

  // The single pass.

  method Append(buckets: seq<Bucket>, key: string, id: string) returns (r: seq<Bucket>)
    ensures r == Put(buckets, key, id)
  {
    for i := 0 to |buckets|
      invariant forall j :: 0 <= j < i ==> buckets[j].key != key
    {
      if buckets[i].key == key {
        FindFirst(buckets, key, i);
        return buckets[i := Bucket(key, buckets[i].ids + [id])];
      }
    }
    r := buckets + [Bucket(key, [id])];
  }

  lemma {:induction false} FindFirst(buckets: seq<Bucket>, key: string, i: nat)
    requires i < |buckets| && buckets[i].key == key && forall j :: 0 <= j < i ==> buckets[j].key != key
    ensures Find(buckets, key) == Some(i)
  {
    var n := |buckets| - 1;
    if i < n {
      FindFirst(buckets[..n], key, i);
    }
  }

  lemma OneMore<T>(p: T -> bool, s: seq<T>, i: nat)
    requires i < |s|
    ensures Filter(p, s[..i + 1]) == Filter(p, s[..i]) + if p(s[i]) then [s[i]] else []
  {
    assert s[..i + 1][..i] == s[..i];
  }

  lemma OneMoreGrouped(key: Row -> Option<string>, rows: seq<Row>, i: nat)
    requires i < |rows|
    ensures var before := Grouped(key, rows[..i]);
      Grouped(key, rows[..i + 1]) ==
        if key(rows[i]).Some? then Put(before, key(rows[i]).value, rows[i].id) else before
  {
    assert rows[..i + 1][..i] == rows[..i];
  }

  /** `audit_identity_rows` */
  method AuditRows(lib: Library, rows: seq<Row>) returns (r: Result)
    ensures r == Audit(lib, rows)
  {
    hide Grouped, Put, Filter, Mask;
    var emails, usernames, phones := [], [], [];
    var invalid, odd, blankPhones, blankEmails, blankUsernames := [], [], [], [], [];
    NothingGrouped(lib);
    for i := 0 to |rows|
      invariant emails == Grouped(EmailKey(lib), rows[..i])
      invariant usernames == Grouped(UsernameKey(lib), rows[..i])
      invariant phones == Grouped(PhoneKey(lib), rows[..i])
      invariant invalid == PhoneNotes(Filter(InvalidPhone(lib), rows[..i]))
      invariant odd == CanonicalNotes(lib, Filter(OddPhone(lib), rows[..i]))
      invariant blankPhones == Ids(Filter(BlankPhone(lib), rows[..i]))
      invariant blankEmails == Ids(Filter(NoEmail(lib), rows[..i]))
      invariant blankUsernames == Ids(Filter(NoUsername(lib), rows[..i]))
    {
      var row := rows[i];
      OneMoreRow(lib, rows, i);
      if Blank(lib, row.email) {
        blankEmails := blankEmails + [row.id];
      } else {
        emails := Append(emails, lib.casefold(lib.strip(row.email.value)), row.id);
      }
      if Blank(lib, row.username) {
        blankUsernames := blankUsernames + [row.id];
      } else {
        usernames := Append(usernames, lib.casefold(lib.strip(row.username.value)), row.id);
      }
      if row.phone.Some? && lib.strip(row.phone.value) == "" {
        blankPhones := blankPhones + [row.id];
        continue;
      }
      if row.phone.Some? {
        var normalized := lib.canonical(lib.strip(row.phone.value));
        if normalized.None? {
          invalid := invalid + [PhoneNote(row.id, Mask(row.phone.value))];
        } else {
          phones := Append(phones, normalized.value, row.id);
          if lib.strip(row.phone.value) != normalized.value {
            odd := odd + [CanonicalNote(row.id, Mask(row.phone.value), Mask(normalized.value))];
          }
        }
      }
    }
    assert rows[..|rows|] == rows;
    r := Result(
      IdLists(Filter(Crowded, emails)), IdLists(Filter(Crowded, usernames)), Masked(Filter(Crowded, phones)),
      invalid, odd, blankPhones, blankEmails, blankUsernames);
  }

  lemma NothingGrouped(lib: Library)
    ensures forall key: Row -> Option<string> :: Grouped(key, []) == []
    ensures forall p: Row -> bool :: Filter(p, []) == []
  {
  }

  lemma OneMoreRow(lib: Library, rows: seq<Row>, i: nat)
    requires i < |rows|
    ensures var r := rows[i]; var s := rows[..i];
      && Grouped(EmailKey(lib), rows[..i + 1]) ==
           (if Blank(lib, r.email) then Grouped(EmailKey(lib), s)
            else Put(Grouped(EmailKey(lib), s), lib.casefold(lib.strip(r.email.value)), r.id))
      && Grouped(UsernameKey(lib), rows[..i + 1]) ==
           (if Blank(lib, r.username) then Grouped(UsernameKey(lib), s)
            else Put(Grouped(UsernameKey(lib), s), lib.casefold(lib.strip(r.username.value)), r.id))
      && Grouped(PhoneKey(lib), rows[..i + 1]) ==
           (if PhoneKey(lib)(r).None? then Grouped(PhoneKey(lib), s)
            else Put(Grouped(PhoneKey(lib), s), PhoneKey(lib)(r).value, r.id))
      && PhoneNotes(Filter(InvalidPhone(lib), rows[..i + 1])) == PhoneNotes(Filter(InvalidPhone(lib), s)) +
           (if InvalidPhone(lib)(r) then [PhoneNote(r.id, Mask(PhoneText(r)))] else [])
      && CanonicalNotes(lib, Filter(OddPhone(lib), rows[..i + 1])) == CanonicalNotes(lib, Filter(OddPhone(lib), s)) +
           (if OddPhone(lib)(r) then [NoteOf(lib, r)] else [])
      && Ids(Filter(BlankPhone(lib), rows[..i + 1])) == Ids(Filter(BlankPhone(lib), s)) +
           (if BlankPhone(lib)(r) then [r.id] else [])
      && Ids(Filter(NoEmail(lib), rows[..i + 1])) == Ids(Filter(NoEmail(lib), s)) +
           (if NoEmail(lib)(r) then [r.id] else [])
      && Ids(Filter(NoUsername(lib), rows[..i + 1])) == Ids(Filter(NoUsername(lib), s)) +
           (if NoUsername(lib)(r) then [r.id] else [])
  {
    hide Grouped, Put, Filter, Mask;
    OneMoreGrouped(EmailKey(lib), rows, i);
    OneMoreGrouped(UsernameKey(lib), rows, i);
    OneMoreGrouped(PhoneKey(lib), rows, i);
    OneMore(InvalidPhone(lib), rows, i);
    OneMore(OddPhone(lib), rows, i);
    OneMore(BlankPhone(lib), rows, i);
    OneMore(NoEmail(lib), rows, i);
    OneMore(NoUsername(lib), rows, i);
  }
}
