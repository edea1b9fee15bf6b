/**
 Migration file order (scripts/migration-order.js) and the loop that applies migrations
 (scripts/migrate.js).
 */
module MigrationOrder {
  import opened Wrappers

  datatype MigrationProblem =
    | InvalidName | InvalidSuffix | InvalidSequence
    | DuplicateName | DuplicateSequence
    | DuplicateMetadata | UnknownApplied | OutOfOrderMetadata
    | MigrationFailed

  /** `rank` is 0 without a variant letter, and the letter's place in the alphabet with one. */
  datatype Migration = Migration(name: string, sequence: nat, rank: nat)

  // ---- Names ----

  predicate IsDigit(c: char) {
    '0' <= c <= '9'
  }

  predicate IsLower(c: char) {
    'a' <= c <= 'z'
  }

  function DigitRun(s: string): (n: nat)
    ensures n <= |s| && forall i :: 0 <= i < n ==> IsDigit(s[i])
  {
    if s == "" || !IsDigit(s[0]) then 0 else 1 + DigitRun(s[1..])
  }

  function Number(s: string): nat
    requires forall i :: 0 <= i < |s| ==> IsDigit(s[i])
  {
    if s == "" then 0
    else
      assert IsDigit(s[|s| - 1]);
      Number(s[..|s| - 1]) * 10 + (s[|s| - 1] as int - '0' as int)
  }

  /** `[a-z0-9]+(?:_[a-z0-9]+)*` */
  predicate IsSlug(s: string) {
    && s != "" && s[0] != '_' && s[|s| - 1] != '_'
    && (forall i :: 0 <= i < |s| ==> IsDigit(s[i]) || IsLower(s[i]) || s[i] == '_')
    && (forall i :: 0 < i < |s| ==> !(s[i - 1] == '_' && s[i] == '_'))
  }

  predicate EndsWithSql(s: string) {
    |s| >= 4 && s[|s| - 4..] == ".sql"
  }

  function ParseMigrationName(name: string): (parsed: Result<Migration, MigrationProblem>)
    ensures parsed.Ok? ==> parsed.value.name == name && parsed.value.sequence > 0 && parsed.value.rank <= 26
  {
    if name == "" then Err(InvalidName)
    else if !EndsWithSql(name) then Err(InvalidSuffix)
    else
      var stem := name[..|name| - 4];
      var n := DigitRun(stem);
      if n < 3 || n > 4 then Err(InvalidName)
      else
        var lettered := n < |stem| && IsLower(stem[n]);
        var rest := if lettered then stem[n + 1..] else stem[n..];
        if rest == "" || rest[0] != '_' || !IsSlug(rest[1..]) then Err(InvalidName)
        else if Number(stem[..n]) == 0 then Err(InvalidSequence)
        else Ok(Migration(name, Number(stem[..n]), if lettered then stem[n] as int - 'a' as int + 1 else 0))
  }

  // ---- Order ----

  /** The comparator of the sort; its tie-break by name is never reached, because order keys are distinct. */
  predicate Before(a: Migration, b: Migration) {
    a.sequence < b.sequence || (a.sequence == b.sequence && a.rank < b.rank)
  }

  predicate SameKey(a: Migration, b: Migration) {
    a.sequence == b.sequence && a.rank == b.rank
  }

  /** The files read one by one, up to the first problem. */
  function ReadAll(names: seq<string>): Result<seq<Migration>, MigrationProblem> {
    if names == [] then Ok([])
    else
      var earlier := ReadAll(names[..|names| - 1]);
      if earlier.Err? then earlier
      else
        var parsed := ParseMigrationName(names[|names| - 1]);
        if parsed.Err? then Err(parsed.error)
        else if exists i :: 0 <= i < |earlier.value| && earlier.value[i].name == parsed.value.name then Err(DuplicateName)
        else if exists i :: 0 <= i < |earlier.value| && SameKey(earlier.value[i], parsed.value) then Err(DuplicateSequence)
        else Ok(earlier.value + [parsed.value])
  }

  function Insert(m: Migration, ms: seq<Migration>): seq<Migration> {
    if ms == [] then [m] else if Before(m, ms[0]) then [m] + ms else [ms[0]] + Insert(m, ms[1..])
  }

  function Sorted(ms: seq<Migration>): seq<Migration> {
    if ms == [] then [] else Insert(ms[0], Sorted(ms[1..]))
  }

  function Names(ms: seq<Migration>): (names: seq<string>)
    ensures |names| == |ms| && forall i :: 0 <= i < |ms| ==> names[i] == ms[i].name
  {
    if ms == [] then [] else [ms[0].name] + Names(ms[1..])
  }

  function ValidateFiles(names: seq<string>): Result<seq<string>, MigrationProblem> {
    var all := ReadAll(names);
    if all.Err? then Err(all.error) else Ok(Names(Sorted(all.value)))
  }

  // ---- What reading accepts ----

  /** Every name parses, and no two share a name or an order key. */
  predicate Acceptable(names: seq<string>) {
    && (forall i :: 0 <= i < |names| ==> ParseMigrationName(names[i]).Ok?)
    && (forall i, j :: 0 <= i < j < |names| ==>
          names[i] != names[j] && !SameKey(ParseMigrationName(names[i]).value, ParseMigrationName(names[j]).value))
  }

  predicate Reads(names: seq<string>, ms: seq<Migration>) {
    |ms| == |names| && forall i :: 0 <= i < |names| ==> ParseMigrationName(names[i]) == Ok(ms[i])
  }

  lemma {:induction false} ReadAllAccepts(names: seq<string>)
    ensures ReadAll(names).Ok? <==> Acceptable(names)
    ensures ReadAll(names).Ok? ==> Reads(names, ReadAll(names).value)
  {
    hide ParseMigrationName;
    if names == [] {
    } else {
      var n := |names| - 1;
      var init := names[..n];
      ReadAllAccepts(init);
      assert forall i :: 0 <= i < n ==> init[i] == names[i];
      if Acceptable(names) {
        assert Acceptable(init);
        var earlier := ReadAll(init).value;
        forall i | 0 <= i < n ensures earlier[i].name != names[n] && !SameKey(earlier[i], ParseMigrationName(names[n]).value) {
          ParsedName(names[i]);
        }
        ParsedName(names[n]);
      }
      if ReadAll(names).Ok? {
        var earlier := ReadAll(init).value;
        ParsedName(names[n]);
        forall i | 0 <= i < n
          ensures names[i] != names[n] && !SameKey(ParseMigrationName(names[i]).value, ParseMigrationName(names[n]).value)
        {
          ParsedName(names[i]);
          assert earlier[i] == ParseMigrationName(init[i]).value;
        }
      }
    }
  }

  lemma ParsedName(name: string)
    ensures ParseMigrationName(name).Ok? ==> ParseMigrationName(name).value.name == name
  {
  }

  // ---- Sorting ----

  predicate Increasing(ms: seq<Migration>) {
    forall i, j :: 0 <= i < j < |ms| ==> Before(ms[i], ms[j])
  }

  predicate DistinctKeys(ms: seq<Migration>) {
    forall i, j :: 0 <= i < j < |ms| ==> !SameKey(ms[i], ms[j])
  }

  lemma {:induction false} InsertElements(m: Migration, ms: seq<Migration>)
    ensures multiset(Insert(m, ms)) == multiset(ms) + multiset{m}
    ensures |Insert(m, ms)| == |ms| + 1
  {
    if ms == [] {
    } else if Before(m, ms[0]) {
    } else {
      InsertElements(m, ms[1..]);
      assert ms == [ms[0]] + ms[1..];
    }
  }

  lemma {:induction false} SortedElements(ms: seq<Migration>)
    ensures multiset(Sorted(ms)) == multiset(ms) && |Sorted(ms)| == |ms|
  {
    if ms != [] {
      SortedElements(ms[1..]);
      InsertElements(ms[0], Sorted(ms[1..]));
      assert ms == [ms[0]] + ms[1..];
    }
  }

  lemma {:induction false} InsertIncreases(m: Migration, ms: seq<Migration>)
    requires Increasing(ms) && forall x :: x in ms ==> !SameKey(m, x)
    ensures Increasing(Insert(m, ms))
  {
    if ms == [] {
    } else if Before(m, ms[0]) {
    } else {
      InsertIncreases(m, ms[1..]);
      InsertElements(m, ms[1..]);
      var r := Insert(m, ms[1..]);
      assert ms[0] in ms;
      forall x | x in r ensures Before(ms[0], x) {
        assert x in multiset(r);
        assert x == m || x in ms[1..];
      }
    }
  }

  lemma {:induction false} SortedIncreases(ms: seq<Migration>)
    requires DistinctKeys(ms)
    ensures Increasing(Sorted(ms))
  {
    if ms != [] {
      SortedIncreases(ms[1..]);
      SortedElements(ms[1..]);
      forall x | x in Sorted(ms[1..]) ensures !SameKey(ms[0], x) {
        assert x in multiset(Sorted(ms[1..]));
        assert x in ms[1..];
      }
      InsertIncreases(ms[0], Sorted(ms[1..]));
    }
  }

  lemma SortedHas(ms: seq<Migration>, m: Migration)
    ensures m in Sorted(ms) <==> m in ms
  {
    SortedElements(ms);
    hide Sorted;
    assert m in Sorted(ms) <==> m in multiset(Sorted(ms));
    assert m in ms <==> m in multiset(ms);
  }

  /** An increasing list is determined by its elements. */
  lemma {:induction false} IncreasingIsUnique(a: seq<Migration>, b: seq<Migration>)
    requires Increasing(a) && Increasing(b) && forall m :: m in a <==> m in b
    ensures a == b
  {
    if a == [] {
      SomeElement(b);
    } else {
      assert a[0] in b && (b == [] || b[0] in a);
      assert a[0] == b[0];
      forall m ensures m in a[1..] <==> m in b[1..] {
        RestHas(a, m);
        RestHas(b, m);
      }
      IncreasingIsUnique(a[1..], b[1..]);
    }
  }

  lemma SomeElement(ms: seq<Migration>)
    ensures ms != [] ==> exists m :: m in ms
  {
    if ms != [] {
      assert ms[0] in ms;
    }
  }

  lemma RestHas(ms: seq<Migration>, m: Migration)
    requires Increasing(ms) && ms != []
    ensures m in ms[1..] <==> m in ms && m != ms[0]
  {
    assert ms == [ms[0]] + ms[1..];
  }

  /** The migrations read are those of the names, and no others. */
  lemma ReadHas(names: seq<string>, ms: seq<Migration>, m: Migration)
    requires Reads(names, ms)
    ensures m in ms <==> m.name in names && ParseMigrationName(m.name) == Ok(m)
  {
    hide ParseMigrationName;
    if m in ms {
      var k :| 0 <= k < |ms| && ms[k] == m;
      ParsedName(names[k]);
    }
    if m.name in names && ParseMigrationName(m.name) == Ok(m) {
      var k :| 0 <= k < |names| && names[k] == m.name;
      assert ms[k] == m;
    }
  }

  // ---- Main results on order ----

  /** Accepted names come back strictly increasing, each exactly once. */
  lemma OrderIsStrict(names: seq<string>)
    requires ValidateFiles(names).Ok?
    ensures var ordered := ValidateFiles(names).value;
      && |ordered| == |names| && (forall name :: name in ordered <==> name in names)
      && (forall i :: 0 <= i < |ordered| ==> ParseMigrationName(ordered[i]).Ok?)
      && (forall i, j :: 0 <= i < j < |ordered| ==>
            Before(ParseMigrationName(ordered[i]).value, ParseMigrationName(ordered[j]).value))
  {
    hide ParseMigrationName, ReadAll, Sorted;
    ReadAllAccepts(names);
    var ms := ReadAll(names).value;
    SortedElements(ms);
    SortedIncreases(ms);
    var sorted := Sorted(ms);
    OrderedParses(names, ms, sorted);
    forall name ensures name in Names(sorted) <==> name in names {
      OrderedHas(names, ms, sorted, name);
    }
  }

  lemma OrderedParses(names: seq<string>, ms: seq<Migration>, sorted: seq<Migration>)
    requires Reads(names, ms) && sorted == Sorted(ms)
    ensures forall i :: 0 <= i < |sorted| ==> ParseMigrationName(Names(sorted)[i]) == Ok(sorted[i])
  {
    hide ParseMigrationName, Sorted;
    forall i | 0 <= i < |sorted| ensures ParseMigrationName(Names(sorted)[i]) == Ok(sorted[i]) {
      SortedHas(ms, sorted[i]);
      ReadHas(names, ms, sorted[i]);
    }
  }

  lemma OrderedHas(names: seq<string>, ms: seq<Migration>, sorted: seq<Migration>, name: string)
    requires Reads(names, ms) && sorted == Sorted(ms)
    ensures name in Names(sorted) <==> name in names
  {
    hide ParseMigrationName, Sorted;
    if name in Names(sorted) {
      var k :| 0 <= k < |sorted| && Names(sorted)[k] == name;
      SortedHas(ms, sorted[k]);
      ReadHas(names, ms, sorted[k]);
    }
    if name in names {
      var k :| 0 <= k < |names| && names[k] == name;
      ParsedName(name);
      SortedHas(ms, ms[k]);
      var q :| 0 <= q < |sorted| && sorted[q] == ms[k];
      assert Names(sorted)[q] == name;
    }
  }

  /** The order does not depend on how the directory listed the files. */
  lemma OrderIgnoresListing(names: seq<string>, listed: seq<string>)
    requires multiset(names) == multiset(listed) && ValidateFiles(names).Ok?
    ensures ValidateFiles(listed) == ValidateFiles(names)
  {
    hide ParseMigrationName, ReadAll, Sorted;
    ReadAllAccepts(names);
    ReadAllAccepts(listed);
    ListingIsAcceptable(names, listed);
    var a, b := ReadAll(names).value, ReadAll(listed).value;
    SortedIncreases(a);
    SortedIncreases(b);
    forall m ensures m in Sorted(a) <==> m in Sorted(b) {
      SortedHas(a, m);
      SortedHas(b, m);
      ReadHas(names, a, m);
      ReadHas(listed, b, m);
      assert m.name in names <==> m.name in multiset(names);
      assert m.name in listed <==> m.name in multiset(listed);
    }
    IncreasingIsUnique(Sorted(a), Sorted(b));
  }

  /** Distinctness and parsing are about the elements only. */
  lemma ListingIsAcceptable(names: seq<string>, listed: seq<string>)
    requires multiset(names) == multiset(listed) && Acceptable(names)
    ensures Acceptable(listed)
  {
    hide ParseMigrationName;
    forall i | 0 <= i < |listed| ensures ParseMigrationName(listed[i]).Ok? {
      assert listed[i] in multiset(names);
    }
    forall i, j | 0 <= i < j < |listed|
      ensures listed[i] != listed[j]
        && !SameKey(ParseMigrationName(listed[i]).value, ParseMigrationName(listed[j]).value)
    {
      assert listed[i] in multiset(names) && listed[j] in multiset(names);
      if listed[i] == listed[j] {
        TwiceInMultiset(listed, i, j);
        DistinctCountsOne(names, listed[i]);
      } else {
        var p :| 0 <= p < |names| && names[p] == listed[i];
        var q :| 0 <= q < |names| && names[q] == listed[j];
        assert p < q || q < p;
      }
    }
  }

  lemma TwiceInMultiset(s: seq<string>, i: nat, j: nat)
    requires i < j < |s| && s[i] == s[j]
    ensures multiset(s)[s[i]] >= 2
  {
    assert s == s[..i] + [s[i]] + s[i + 1..j] + [s[j]] + s[j + 1..];
  }

  lemma {:induction false} DistinctCountsOne(s: seq<string>, x: string)
    requires forall i, j :: 0 <= i < j < |s| ==> s[i] != s[j]
    ensures multiset(s)[x] <= 1
  {
    if s != [] {
      DistinctCountsOne(s[1..], x);
      assert s == [s[0]] + s[1..];
      if x == s[0] {
        assert x !in s[1..];
      }
    }
  }

  // ---- The loops ----

  lemma {:induction false} ProblemsStick(names: seq<string>, i: nat)
    requires i <= |names| && ReadAll(names[..i]).Err?
    ensures ReadAll(names) == ReadAll(names[..i])
    decreases |names|
  {
    if i == |names| {
      assert names[..i] == names;
    } else {
      assert names[..|names| - 1][..i] == names[..i];
      ProblemsStick(names[..|names| - 1], i);
    }
  }

  /** `validateMigrationFiles`, with its sets of names and order keys seen so far. */
  method ValidateMigrationFiles(names: seq<string>) returns (ordered: Result<seq<string>, MigrationProblem>)
    ensures ordered == ValidateFiles(names)
  {
    hide ParseMigrationName;
    var seenNames: set<string> := {};
    var seenKeys: map<(nat, nat), string> := map[];
    var parsed: seq<Migration> := [];
    for i := 0 to |names|
      invariant ReadAll(names[..i]) == Ok(parsed)
      invariant seenNames == NamesOf(parsed) && seenKeys.Keys == KeysOf(parsed)
    {
      assert names[..i + 1][..i] == names[..i];
      var migration := ParseMigrationName(names[i]);
      ParsedName(names[i]);
      if migration.Err? {
        ProblemsStick(names, i + 1);
        return Err(migration.error);
      }
      var m := migration.value;
      Seen(parsed, m);
      if names[i] in seenNames {
        ProblemsStick(names, i + 1);
        return Err(DuplicateName);
      }
      if (m.sequence, m.rank) in seenKeys {
        ProblemsStick(names, i + 1);
        return Err(DuplicateSequence);
      }
      seenNames := seenNames + {names[i]};
      seenKeys := seenKeys[(m.sequence, m.rank) := names[i]];
      Grown(parsed, m);
      parsed := parsed + [m];
    }
    assert names[..|names|] == names;
    return Ok(Names(Sorted(parsed)));
  }

  function NamesOf(ms: seq<Migration>): set<string> {
    set m | m in ms :: m.name
  }

  function KeysOf(ms: seq<Migration>): set<(nat, nat)> {
    set m | m in ms :: (m.sequence, m.rank)
  }

  lemma Seen(parsed: seq<Migration>, m: Migration)
    ensures m.name in NamesOf(parsed) <==> exists i :: 0 <= i < |parsed| && parsed[i].name == m.name
    ensures (m.sequence, m.rank) in KeysOf(parsed) <==> exists i :: 0 <= i < |parsed| && SameKey(parsed[i], m)
  {
    if x :| x in parsed && (x.sequence, x.rank) == (m.sequence, m.rank) {
      var i :| 0 <= i < |parsed| && parsed[i] == x;
      assert SameKey(parsed[i], m);
    }
    if i :| 0 <= i < |parsed| && SameKey(parsed[i], m) {
      assert parsed[i] in parsed;
    }
  }

  lemma Grown(parsed: seq<Migration>, m: Migration)
    ensures NamesOf(parsed + [m]) == NamesOf(parsed) + {m.name}
    ensures KeysOf(parsed + [m]) == KeysOf(parsed) + {(m.sequence, m.rank)}
  {
    assert m in parsed + [m];
    forall x | x in parsed ensures x in parsed + [m] {
    }
    assert NamesOf(parsed) <= NamesOf(parsed + [m]);
    assert KeysOf(parsed) <= KeysOf(parsed + [m]);
  }

  predicate DistinctNames(names: seq<string>) {
    forall i, j :: 0 <= i < j < |names| ==> names[i] != names[j]
  }

  /** The rows are exactly the first files, in any order. */
  ghost predicate IsPrefixOf(rows: seq<string>, ordered: seq<string>) {
    DistinctNames(rows) && |rows| <= |ordered| && forall name :: name in rows <==> name in ordered[..|rows|]
  }

  function Elements(names: seq<string>): set<string> {
    set name | name in names
  }

  lemma {:induction false} DistinctCount(names: seq<string>)
    requires DistinctNames(names)
    ensures |Elements(names)| == |names|
  {
    if names != [] {
      DistinctCount(names[1..]);
      assert names == [names[0]] + names[1..];
      assert Elements(names) == {names[0]} + Elements(names[1..]);
    }
  }

  lemma SubsetOfSameSize(small: set<string>, big: set<string>)
    requires small <= big
    ensures |small| <= |big| && (|small| == |big| ==> small == big)
  {
    assert big == small + (big - small);
  }

  lemma OrderedIsDistinct(names: seq<string>)
    requires ValidateFiles(names).Ok?
    ensures DistinctNames(ValidateFiles(names).value)
  {
    OrderIsStrict(names);
    hide ParseMigrationName, ValidateFiles;
  }

  /** Names that are all among the ordered files and cover a prefix as long as themselves are that prefix. */
  lemma CoveringIsPrefix(rows: seq<string>, ordered: seq<string>)
    requires DistinctNames(rows) && DistinctNames(ordered) && forall name :: name in rows ==> name in ordered
    ensures |rows| <= |ordered|
    ensures (forall name :: name in ordered[..|rows|] ==> name in rows) <==> IsPrefixOf(rows, ordered)
  {
    DistinctCount(rows);
    DistinctCount(ordered);
    SubsetOfSameSize(Elements(rows), Elements(ordered));
    var prefix := ordered[..|rows|];
    DistinctCount(prefix);
    if forall name :: name in prefix ==> name in rows {
      SubsetOfSameSize(Elements(prefix), Elements(rows));
      forall name ensures name in rows <==> name in prefix {
        assert name in Elements(rows) <==> name in Elements(prefix);
      }
    }
  }

  /** What the checks on single rows come to. */
  predicate RowsPass(rows: seq<string>, ordered: seq<string>) {
    DistinctNames(rows) && forall i :: 0 <= i < |rows| ==> rows[i] in ordered
  }

  lemma PrefixRowsPass(rows: seq<string>, ordered: seq<string>)
    requires IsPrefixOf(rows, ordered)
    ensures RowsPass(rows, ordered)
  {
    forall i | 0 <= i < |rows| ensures rows[i] in ordered {
      assert rows[i] in rows;
    }
  }

  /** The checks on single rows: each parses, is new, and is known. */
  method CheckRows(ordered: seq<string>, rows: seq<string>) returns (seen: Result<set<string>, MigrationProblem>)
    requires forall i :: 0 <= i < |ordered| ==> ParseMigrationName(ordered[i]).Ok?
    ensures seen.Ok? <==> RowsPass(rows, ordered)
    ensures seen.Ok? ==> seen.value == Elements(rows)
  {
    hide ParseMigrationName;
    var known := set name | name in ordered;
    var applied: set<string> := {};
    for i := 0 to |rows|
      invariant applied == Elements(rows[..i]) && RowsPass(rows[..i], ordered)
    {
      assert rows[..i + 1] == rows[..i] + [rows[i]];
      var parsed := ParseMigrationName(rows[i]);
      if parsed.Err? {
        return Err(parsed.error);
      }
      if rows[i] in applied {
        return Err(DuplicateMetadata);
      }
      if rows[i] !in known {
        return Err(UnknownApplied);
      }
      applied := applied + {rows[i]};
    }
    assert rows[..|rows|] == rows;
    return Ok(applied);
  }

  /** `validateAppliedMigrationMetadata`: accepted exactly when the rows are a prefix of the canonical order. */
  method ValidateAppliedMetadata(files: seq<string>, rows: seq<string>) returns (applied: Result<set<string>, MigrationProblem>)
    ensures applied.Ok? <==> ValidateFiles(files).Ok? && IsPrefixOf(rows, ValidateFiles(files).value)
    ensures applied.Ok? ==> applied.value == Elements(rows)
  {
    hide ParseMigrationName, ValidateFiles, IsPrefixOf;
    var ordered :- ValidateMigrationFiles(files);
    OrderIsStrict(files);
    OrderedIsDistinct(files);
    if IsPrefixOf(rows, ordered) {
      PrefixRowsPass(rows, ordered);
    }
    var seen :- CheckRows(ordered, rows);
    CoveringIsPrefix(rows, ordered);
    DistinctCount(rows);
    var k := |seen|;
    for i := 0 to k
      invariant forall j :: 0 <= j < i ==> ordered[j] in seen
    {
      if ordered[i] !in seen {
        assert ordered[..k][i] == ordered[i];
        return Err(OutOfOrderMetadata);
      }
    }
    return Ok(seen);
  }

  /** The metadata table of one database, and every migration that was ever executed in it. */
  class Migrator {
    var meta: seq<string>
    var executed: seq<string>

    constructor ()
      ensures meta == [] && executed == []
    {
      meta, executed := [], [];
    }

    /**
     The apply loop. `fails` decides at which file, if any, the run stops; the row and the migration
     are one transaction. However it ends, the metadata is a prefix again, longer by exactly the files
     that were executed, in order, and a completed run leaves every file applied.
     */
    method Migrate(files: seq<string>, fails: string -> bool) returns (done: Result<bool, MigrationProblem>)
      modifies this
      ensures done.Ok? ==>
        && ValidateFiles(files).Ok? && |old(meta)| <= |ValidateFiles(files).value| == |meta|
        && IsPrefixOf(old(meta), ValidateFiles(files).value) && IsPrefixOf(meta, ValidateFiles(files).value)
      ensures ValidateFiles(files).Ok? && IsPrefixOf(old(meta), ValidateFiles(files).value) ==>
        && IsPrefixOf(meta, ValidateFiles(files).value)
        && |old(meta)| <= |meta| <= |ValidateFiles(files).value|
        && meta == old(meta) + ValidateFiles(files).value[|old(meta)|..|meta|]
        && executed == old(executed) + ValidateFiles(files).value[|old(meta)|..|meta|]
        && (done.Err? ==> done.error == MigrationFailed)
      ensures !(ValidateFiles(files).Ok? && IsPrefixOf(old(meta), ValidateFiles(files).value)) ==>
        done.Err? && meta == old(meta) && executed == old(executed)
    {
      hide ParseMigrationName, ValidateFiles;
      var ordered :- ValidateMigrationFiles(files);
      var applied :- ValidateAppliedMetadata(files, meta);
      OrderedIsDistinct(files);
      ghost var n := |meta|;
      for i := 0 to |ordered|
        invariant n == |old(meta)| <= |meta|
        invariant |meta| == if i <= n then n else i
        invariant |meta| <= |ordered| && meta == old(meta) + ordered[n..|meta|]
        invariant executed == old(executed) + ordered[n..|meta|]
      {
        SkippedExactly(old(meta), ordered, applied, i);
        if ordered[i] in applied {
          continue;
        }
        if fails(ordered[i]) {
          StillPrefix(old(meta), ordered, meta);
          return Err(MigrationFailed);
        }
        assert ordered[n..i + 1] == ordered[n..i] + [ordered[i]];
        executed := executed + [ordered[i]];
        meta := meta + [ordered[i]];
      }
      StillPrefix(old(meta), ordered, meta);
      return Ok(true);
    }
  }

  /** The loop skips exactly the files that were applied before. */
  lemma SkippedExactly(rows: seq<string>, ordered: seq<string>, applied: set<string>, i: nat)
    requires IsPrefixOf(rows, ordered) && DistinctNames(ordered) && applied == Elements(rows) && i < |ordered|
    ensures ordered[i] in applied <==> i < |rows|
  {
    if i < |rows| {
      assert ordered[i] in ordered[..|rows|];
    }
  }

  /** Adding the next files keeps the metadata a prefix, so that the next run accepts it. */
  lemma StillPrefix(rows: seq<string>, ordered: seq<string>, meta: seq<string>)
    requires IsPrefixOf(rows, ordered) && DistinctNames(ordered)
    requires |rows| <= |meta| <= |ordered| && meta == rows + ordered[|rows|..|meta|]
    ensures IsPrefixOf(meta, ordered)
  {
    var n := |rows|;
    assert ordered[..|meta|] == ordered[..n] + ordered[n..|meta|];
    forall name ensures name in meta <==> name in ordered[..|meta|] {
      assert name in rows <==> name in ordered[..n];
    }
    forall i, j | 0 <= i < j < |meta| ensures meta[i] != meta[j] {
      if i < n <= j {
        assert meta[i] in ordered[..n];
        var k :| 0 <= k < n && ordered[k] == meta[i];
        assert meta[j] == ordered[j];
      } else if n <= i {
        assert meta[i] == ordered[i] && meta[j] == ordered[j];
      }
    }
  }
}
