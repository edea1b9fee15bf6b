/**
 Migration names as the pattern of scripts/migration-order.js describes them: three or four digits, at
 most one letter, and words after underscores. The parser accepts exactly those names, and reads from
 each the number and the letter it is ordered by.
 */
module MigrationNames {
  import opened Wrappers
  import opened MigrationOrder

  datatype Parts = Parts(number: string, letter: string, words: seq<string>)

  predicate IsWord(w: string) {
    w != "" && forall i :: 0 <= i < |w| ==> '0' <= w[i] <= '9' || 'a' <= w[i] <= 'z'
  }

  predicate IsParts(p: Parts) {
    && 3 <= |p.number| <= 4 && (forall i :: 0 <= i < |p.number| ==> '0' <= p.number[i] <= '9')
    && |p.letter| <= 1 && (p.letter != "" ==> 'a' <= p.letter[0] <= 'z')
    && p.words != [] && forall i :: 0 <= i < |p.words| ==> IsWord(p.words[i])
  }

  function Spelled(words: seq<string>): string {
    if words == [] then "" else "_" + words[0] + Spelled(words[1..])
  }

  function NameOf(p: Parts): string {
    p.number + p.letter + Spelled(p.words) + ".sql"
  }

  function Digit(c: char): int {
    c as int - '0' as int
  }

  function ValueOf(p: Parts): int
    requires IsParts(p)
  {
    var d := p.number;
    if |d| == 3 then 100 * Digit(d[0]) + 10 * Digit(d[1]) + Digit(d[2])
    else 1000 * Digit(d[0]) + 100 * Digit(d[1]) + 10 * Digit(d[2]) + Digit(d[3])
  }

  // ---- Slugs are words ----

  lemma DropFirst(w: string, rest: string)
    ensures |"_" + w + rest| == 1 + |w| + |rest| && ("_" + w + rest)[0] == '_' && ("_" + w + rest)[1..] == w + rest
  {
  }

  lemma {:induction false} SpelledIsSlug(words: seq<string>)
    requires words != [] && forall i :: 0 <= i < |words| ==> IsWord(words[i])
    ensures |Spelled(words)| > 1 && Spelled(words)[0] == '_' && IsSlug(Spelled(words)[1..])
  {
    hide IsSlug, IsWord;
    var w, rest := words[0], Spelled(words[1..]);
    WordIsSlug(w);
    DropFirst(w, rest);
    if |words| == 1 {
      assert w + rest == w;
    } else {
      SpelledIsSlug(words[1..]);
      JoinedSlug(w, rest[1..]);
      Rejoin(w, rest);
    }
  }

  lemma Rejoin(w: string, rest: string)
    requires rest != "" && rest[0] == '_'
    ensures w + "_" + rest[1..] == w + rest
  {
  }

  lemma WordIsSlug(w: string)
    requires IsWord(w)
    ensures IsSlug(w) && |w| > 0
  {
  }

  lemma JoinedSlug(w: string, slug: string)
    requires IsWord(w) && IsSlug(slug)
    ensures IsSlug(w + "_" + slug)
  {
    var s := w + "_" + slug;
    assert forall i :: 0 <= i < |w| ==> s[i] == w[i];
    assert s[|w|] == '_';
    assert forall i :: |w| < i < |s| ==> s[i] == slug[i - |w| - 1];
  }

  function WordRun(s: string): (n: nat)
    ensures n <= |s| && (forall i :: 0 <= i < n ==> s[i] != '_') && (n < |s| ==> s[n] == '_')
  {
    if s == "" || s[0] == '_' then 0 else 1 + WordRun(s[1..])
  }

  lemma RestIsSlug(slug: string, k: nat)
    requires IsSlug(slug) && 0 < k < |slug| && slug[k - 1] == '_'
    ensures IsSlug(slug[k..])
  {
    var rest := slug[k..];
    assert rest[0] == slug[k] && !(slug[k - 1] == '_' && slug[k] == '_');
    assert rest[|rest| - 1] == slug[|slug| - 1];
    forall i | 0 < i < |rest| ensures !(rest[i - 1] == '_' && rest[i] == '_') {
      assert rest[i - 1] == slug[k + i - 1] && rest[i] == slug[k + i];
    }
  }

  lemma UnbrokenIsWord(slug: string, n: nat)
    requires IsSlug(slug) && 0 < n <= |slug| && forall i :: 0 <= i < n ==> slug[i] != '_'
    ensures IsWord(slug[..n])
  {
    forall i | 0 <= i < n ensures '0' <= slug[..n][i] <= '9' || 'a' <= slug[..n][i] <= 'z' {
      assert slug[..n][i] == slug[i];
    }
  }

  lemma SlugEnds(slug: string)
    requires IsSlug(slug)
    ensures slug != "" && slug[0] != '_' && slug[|slug| - 1] != '_'
  {
  }

  lemma SplitAt(s: string, n: nat)
    requires n < |s| && s[n] == '_'
    ensures s == s[..n] + "_" + s[n + 1..]
  {
  }

  /** The first word of a slug, and the slug after it. */
  lemma FirstWord(slug: string, n: nat)
    requires IsSlug(slug) && n == WordRun(slug)
    ensures IsWord(slug[..n])
    ensures n < |slug| ==> n + 1 < |slug| && IsSlug(slug[n + 1..]) && slug == slug[..n] + "_" + slug[n + 1..]
  {
    hide IsSlug, IsWord;
    SlugEnds(slug);
    assert n > 0;
    hide WordRun;
    UnbrokenIsWord(slug, n);
    if n < |slug| {
      SplitAt(slug, n);
      RestIsSlug(slug, n + 1);
    }
  }

  lemma {:induction false} SlugIsSpelled(slug: string) returns (words: seq<string>)
    requires IsSlug(slug)
    ensures words != [] && (forall i :: 0 <= i < |words| ==> IsWord(words[i])) && Spelled(words) == "_" + slug
    decreases |slug|
  {
    hide IsSlug, IsWord, WordRun;
    var n := WordRun(slug);
    FirstWord(slug, n);
    if n == |slug| {
      words := [slug];
      assert slug[..n] == slug && Spelled(words[1..]) == "" && slug + "" == slug;
    } else {
      var later := SlugIsSpelled(slug[n + 1..]);
      words := [slug[..n]] + later;
      assert words[1..] == later;
      assert "_" + slug == "_" + slug[..n] + ("_" + slug[n + 1..]);
    }
  }

  // ---- The parser reads the parts ----

  lemma {:induction false} DigitRunStops(s: string, n: nat)
    requires n <= |s| && (forall i :: 0 <= i < n ==> '0' <= s[i] <= '9')
    requires n < |s| ==> !('0' <= s[n] <= '9')
    ensures DigitRun(s) == n
  {
    if n > 0 {
      DigitRunStops(s[1..], n - 1);
    }
  }

  lemma NumberIsValue(p: Parts)
    requires IsParts(p)
    ensures forall i :: 0 <= i < |p.number| ==> IsDigit(p.number[i])
    ensures Number(p.number) == ValueOf(p)
  {
    var d := p.number;
    assert d[..1] == [d[0]] && d[..1][..0] == "";
    assert d[..2][..1] == d[..1] && d[..3][..2] == d[..2];
    assert Number(d[..1]) == Digit(d[0]);
    assert Number(d[..2]) == 10 * Digit(d[0]) + Digit(d[1]);
    assert Number(d[..3]) == 100 * Digit(d[0]) + 10 * Digit(d[1]) + Digit(d[2]);
    assert |d| == 3 ==> d[..3] == d;
    assert |d| == 4 ==> d[..|d| - 1] == d[..3];
  }

  function RankOf(letter: string): int {
    if letter == "" then 0 else letter[0] as int - 'a' as int + 1
  }

  /** How a name falls apart. */
  lemma NameSlices(number: string, letter: string, slug: string)
    requires |letter| <= 1 && slug != ""
    ensures var stem, name := number + letter + slug, number + letter + slug + ".sql";
      && |name| == |stem| + 4 && name[..|name| - 4] == stem && name[|name| - 4..] == ".sql"
      && |stem| > |number| && stem[..|number|] == number
      && (letter == "" ==> stem[|number|] == slug[0] && stem[|number|..] == slug)
      && (letter != "" ==> stem[|number|] == letter[0] && stem[|number| + 1..] == slug)
  {
  }

  /** A name of these parts is read as its number and its letter; only the number zero is refused. */
  lemma PartsAreRead(p: Parts)
    requires IsParts(p)
    ensures ParseMigrationName(NameOf(p))
         == if ValueOf(p) == 0 then Err(InvalidSequence) else Ok(Migration(NameOf(p), ValueOf(p), RankOf(p.letter)))
  {
    hide IsSlug, Number, Spelled, IsWord, DigitRun, ValueOf;
    var slug := Spelled(p.words);
    var stem := p.number + p.letter + slug;
    SpelledIsSlug(p.words);
    NameSlices(p.number, p.letter, slug);
    assert forall i :: 0 <= i < |p.number| ==> stem[i] == stem[..|p.number|][i];
    DigitRunStops(stem, |p.number|);
    NumberIsValue(p);
  }

  ghost predicate IsMigrationName(name: string) {
    exists p :: IsParts(p) && NameOf(p) == name
  }

  /** Every name that is read, or refused for its number alone, splits as the pattern says. */
  lemma ReadNamesSplit(name: string) returns (number: string, letter: string, slug: string)
    requires ParseMigrationName(name).Ok? || ParseMigrationName(name).error == InvalidSequence
    ensures 3 <= |number| <= 4 && forall i :: 0 <= i < |number| ==> '0' <= number[i] <= '9'
    ensures |letter| <= 1 && (letter != "" ==> 'a' <= letter[0] <= 'z')
    ensures IsSlug(slug) && name == number + letter + ("_" + slug) + ".sql"
  {
    hide DigitRun, IsSlug, Number;
    var stem := name[..|name| - 4];
    assert name == stem + ".sql" by { assert name == stem + name[|name| - 4..]; }
    var n := DigitRun(stem);
    number := stem[..n];
    assert forall i :: 0 <= i < n ==> IsDigit(stem[i]);
    if n < |stem| && IsLower(stem[n]) {
      letter, slug := [stem[n]], stem[n + 2..];
      assert stem[n + 1..][1..] == slug && stem[n + 1] == '_';
      assert stem == number + letter + ("_" + slug);
    } else {
      letter, slug := "", stem[n + 1..];
      assert stem[n..][1..] == slug && stem[n] == '_';
      assert stem == number + letter + ("_" + slug);
    }
  }

  lemma ReadNamesHaveParts(name: string) returns (p: Parts)
    requires ParseMigrationName(name).Ok? || ParseMigrationName(name).error == InvalidSequence
    ensures IsParts(p) && NameOf(p) == name
  {
    hide ParseMigrationName, IsSlug, IsWord, Spelled;
    var number, letter, slug := ReadNamesSplit(name);
    var words := SlugIsSpelled(slug);
    p := Parts(number, letter, words);
  }

  /** The parser tells exactly the names of the pattern from all others, and their order key from their parts. */
  lemma NamesAreThePattern(name: string)
    ensures ParseMigrationName(name).Ok? || ParseMigrationName(name) == Err(InvalidSequence) <==> IsMigrationName(name)
    ensures ParseMigrationName(name) == Err(InvalidSequence)
       <==> exists p :: IsParts(p) && NameOf(p) == name && ValueOf(p) == 0
    ensures ParseMigrationName(name) == Err(InvalidSuffix)
       <==> name != "" && (|name| < 4 || name[|name| - 4..] != ".sql")
  {
    hide NameOf;
    if ParseMigrationName(name).Ok? || ParseMigrationName(name) == Err(InvalidSequence) {
      var p := ReadNamesHaveParts(name);
      PartsAreRead(p);
    }
    forall p | IsParts(p) && NameOf(p) == name
      ensures ParseMigrationName(name)
           == if ValueOf(p) == 0 then Err(InvalidSequence) else Ok(Migration(name, ValueOf(p), RankOf(p.letter)))
    {
      PartsAreRead(p);
    }
  }

  /** Smaller numbers come first, and for one number no letter before a, a before b, and so on. */
  predicate ComesBefore(a: Parts, b: Parts)
    requires IsParts(a) && IsParts(b)
  {
    || ValueOf(a) < ValueOf(b)
    || (ValueOf(a) == ValueOf(b)
        && ((a.letter == "" && b.letter != "") || (a.letter != "" && b.letter != "" && a.letter[0] < b.letter[0])))
  }

  /** Accepted files come back ordered by the parts of their names. */
  lemma OrderFollowsTheNames(names: seq<string>, i: nat, j: nat, a: Parts, b: Parts)
    requires ValidateFiles(names).Ok? && i < j < |ValidateFiles(names).value| && IsParts(a) && IsParts(b)
    requires ValidateFiles(names).value[i] == NameOf(a) && ValidateFiles(names).value[j] == NameOf(b)
    ensures ComesBefore(a, b)
  {
    hide ParseMigrationName, ValidateFiles, NameOf, ValueOf;
    OrderIsStrict(names);
    PartsAreRead(a);
    PartsAreRead(b);
  }

  /** A list of names is accepted exactly when no number is zero and no two share both number and letter. */
  lemma FilesAreAccepted(names: seq<string>, parts: seq<Parts>)
    requires |parts| == |names| && forall i :: 0 <= i < |names| ==> IsParts(parts[i]) && NameOf(parts[i]) == names[i]
    ensures ValidateFiles(names).Ok? <==>
      && (forall i :: 0 <= i < |parts| ==> ValueOf(parts[i]) > 0)
      && (forall i, j :: 0 <= i < j < |parts| ==> ValueOf(parts[i]) != ValueOf(parts[j]) || parts[i].letter != parts[j].letter)
  {
    hide ParseMigrationName, NameOf, ValueOf, IsParts, ReadAll;
    ReadAllAccepts(names);
    forall i | 0 <= i < |names| ensures ParseMigrationName(names[i]).Ok? <==> ValueOf(parts[i]) > 0 {
      NumberDecides(parts[i]);
    }
    if forall i :: 0 <= i < |parts| ==> ValueOf(parts[i]) > 0 {
      forall i, j | 0 <= i < j < |names|
        ensures names[i] != names[j] && !SameKey(ParseMigrationName(names[i]).value, ParseMigrationName(names[j]).value)
           <==> ValueOf(parts[i]) != ValueOf(parts[j]) || parts[i].letter != parts[j].letter
      {
        KeysAreTold(parts[i], parts[j]);
      }
    }
  }

  lemma NumberDecides(p: Parts)
    requires IsParts(p)
    ensures ParseMigrationName(NameOf(p)).Ok? <==> ValueOf(p) > 0
  {
    PartsAreRead(p);
    hide ParseMigrationName, NameOf;
  }

  lemma KeysAreTold(a: Parts, b: Parts)
    requires IsParts(a) && IsParts(b) && ValueOf(a) > 0 && ValueOf(b) > 0
    ensures var first, second := ParseMigrationName(NameOf(a)), ParseMigrationName(NameOf(b));
      && first.Ok? && second.Ok?
      && (NameOf(a) != NameOf(b) && !SameKey(first.value, second.value)
          <==> ValueOf(a) != ValueOf(b) || a.letter != b.letter)
  {
    PartsAreRead(a);
    PartsAreRead(b);
    SameRank(a.letter, b.letter);
    hide ParseMigrationName, NameOf, ValueOf, RankOf;
  }

  lemma SameRank(a: string, b: string)
    requires |a| <= 1 && |b| <= 1 && (a != "" ==> 'a' <= a[0] <= 'z') && (b != "" ==> 'a' <= b[0] <= 'z')
    ensures RankOf(a) == RankOf(b) <==> a == b
  {
  }
}
