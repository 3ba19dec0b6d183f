/** The configuration payload: the daemon's encoder, the Java hook's parser, and when they agree. */
module HookPayload {
  import opened Domain
  import opened Text
  import opened AppConfig

  type byte = n: nat | n < 256

  const MAX_LEGACY_UID: u32 := 99_999
  const MIN_APP_UID: u32 := 10_000

  /** Neither whitelisted (40) nor a free background app (50). */
  predicate Managed(r: Record) { r.mode != 40 && r.mode != 50 }

  function ManagedOf(records: seq<Record>): (r: seq<Record>)
    ensures forall x :: x in r <==> x in records && Managed(x)
  {
    if records == [] then []
    else
      var n := |records| - 1;
      assert forall x :: x in records <==> x in records[..n] || x == records[n];
      ManagedOf(records[..n]) + if Managed(records[n]) then [records[n]] else []
  }

  function PermissiveOf(records: seq<Record>): (r: seq<Record>)
    ensures forall x :: x in r <==> x in records && Managed(x) && x.permissive
  {
    if records == [] then []
    else
      var n := |records| - 1;
      assert forall x :: x in records <==> x in records[..n] || x == records[n];
      PermissiveOf(records[..n]) + if Managed(records[n]) && records[n].permissive then [records[n]] else []
  }

  function Join(words: seq<string>): string {
    if words == [] then "" else if |words| == 1 then words[0] else words[0] + " " + Join(words[1..])
  }

  function NonEmpty(line: string): string { if line == "" then " " else line }

  function Numbers(ns: seq<nat>): seq<string> { seq(|ns|, i requires 0 <= i < |ns| => Decimal(ns[i])) }

  function UidsOf(records: seq<Record>): (r: seq<u32>)
    ensures |r| == |records| && forall i :: 0 <= i < |r| ==> r[i] == records[i].uid
  {
    seq(|records|, i requires 0 <= i < |records| => records[i].uid)
  }

  function Tokens(uids: seq<u32>): seq<string> { seq(|uids|, i requires 0 <= i < |uids| => CanonicalToken(uids[i])) }

  /** `encode_xposed_config_payload`; refuses UIDs that do not fit the five-digit legacy format. */
  function Encode(settings: seq<byte>, records: seq<Record>): Option<string> {
    if exists r :: r in ManagedOf(records) && r.uid > MAX_LEGACY_UID then None
    else Some(Join(Numbers(settings)) + "\n"
              + (NonEmpty(Join(Tokens(UidsOf(ManagedOf(records))))) + "\n"
                 + NonEmpty(Join(Numbers(UidsOf(PermissiveOf(records)))))))
  }

  // ---- The hook's parser

  /** Java's `split(c, -1)`: every separator ends a field. */
  function Fields(s: string, c: char): (r: seq<string>)
    ensures r != []
  {
    if s == [] then [""]
    else
      var r := Fields(s[1..], c);
      if s[0] == c then [""] + r else [[s[0]] + r[0]] + r[1..]
  }

  function TrimLeft(s: string): (r: string)
    ensures |r| <= |s| && (r != [] ==> r[0] > ' ')
  {
    if s == [] || s[0] > ' ' then s else TrimLeft(s[1..])
  }

  function TrimRight(s: string): (r: string)
    ensures r <= s
  {
    if s == [] || s[|s| - 1] > ' ' then s else TrimRight(s[..|s| - 1])
  }

  function SpaceAt(s: string): (n: nat)
    ensures n <= |s| && (forall i :: 0 <= i < n ==> s[i] != ' ') && (n < |s| ==> s[n] == ' ')
  {
    if s == [] || s[0] == ' ' then 0 else 1 + SpaceAt(s[1..])
  }

  /** Java's `split(" +")` of a text that does not start with a space. */
  function Runs(s: string): seq<string>
    decreases |s|
  {
    if s == [] then []
    else
      var n := SpaceAt(s);
      if n == |s| then [s]
      else
        var m := SkipSpaces(s[n..]);
        [s[..n]] + Runs(m)
  }

  function SkipSpaces(s: string): (r: string)
    ensures |r| <= |s| && (s != [] && s[0] == ' ' ==> |r| < |s|)
  {
    if s == [] || s[0] != ' ' then s else SkipSpaces(s[1..])
  }

  function ConfigWords(line: string): seq<string> { Runs(TrimRight(TrimLeft(line))) }

  /** The managed-app token: a decimal UID, "uid", and the same digits again. */
  function ParseManaged(token: string): Option<int> {
    var n := UidAt(token);
    if n == |token| || n == 0 then None
    else if !AllDigits(token[..n]) || token[..n] != token[n + 3..] then None
    else ParseI32(token[..n])
  }

  function ParsePermissive(word: string): Option<int> {
    if word == [] || !AllDigits(word) then None else ParseI32(word)
  }

  function ParseSettings(words: seq<string>): Option<seq<int>> {
    if words == [] then Some([])
    else
      var n := |words| - 1;
      var before := ParseSettings(words[..n]);
      if before.None? || ParseI32(words[n]).None? then None else Some(before.value + [ParseI32(words[n]).value])
  }

  function ManagedNumbers(words: seq<string>): seq<Option<int>> {
    seq(|words|, i requires 0 <= i < |words| => ParseManaged(words[i]))
  }

  function PermissiveNumbers(words: seq<string>): seq<Option<int>> {
    seq(|words|, i requires 0 <= i < |words| => ParsePermissive(words[i]))
  }

  /** The set of all numbers, if each of them parsed and may be stored; system UIDs never enter a bucket set. */
  function Bucket(numbers: seq<Option<int>>, allowed: int -> bool): Option<set<int>> {
    if numbers == [] then Some({})
    else
      var n := |numbers| - 1;
      var before := Bucket(numbers[..n], allowed);
      if before.None? || numbers[n].None? || !allowed(numbers[n].value) || numbers[n].value < MIN_APP_UID then None
      else Some(before.value + {numbers[n].value})
  }

  function Anything(): int -> bool { _ => true }

  function Member(s: set<int>): int -> bool { x => x in s }

  function ManagedSet(words: seq<string>): Option<set<int>> { Bucket(ManagedNumbers(words), Anything()) }

  function PermissiveSet(words: seq<string>, managed: set<int>): Option<set<int>> {
    Bucket(PermissiveNumbers(words), Member(managed))
  }

  datatype Parsed = Parsed(settings: seq<int>, managed: set<int>, permissive: set<int>)

  function PayloadLines(payload: string): seq<string> {
    var lines := Fields(payload, '\n');
    if |lines| == 4 && lines[3] == "" then lines[..3] else lines
  }

  /** `handleConfig` up to the publication; `capacity` is the length of the hook's settings array. */
  function Parse(payload: string, capacity: nat): Option<Parsed> {
    var lines := PayloadLines(payload);
    if |lines| != 2 && |lines| != 3 then None
    else
      var words := ConfigWords(lines[0]);
      if words == [] || |words| > capacity then None
      else
        var settings, managed := ParseSettings(words), ManagedSet(ConfigWords(lines[1]));
        if settings.None? || managed.None? then None
        else
          var permissive := if |lines| == 3 then PermissiveSet(ConfigWords(lines[2]), managed.value) else Some({});
          if permissive.None? then None else Some(Parsed(settings.value, managed.value, permissive.value))
  }

  /** The parser as the hook runs it. */
  method HandleConfig(payload: string, capacity: nat) returns (r: Option<Parsed>)
    ensures r == Parse(payload, capacity)
  {
    var lines := PayloadLines(payload);
    if |lines| != 2 && |lines| != 3 { return None; }
    var words := ConfigWords(lines[0]);
    if words == [] || |words| > capacity { return None; }
    var settings := ReadSettings(words);
    if settings.None? { return None; }
    var managed := ReadManaged(ConfigWords(lines[1]));
    if managed.None? { return None; }
    var permissive: Option<set<int>> := Some({});
    if |lines| == 3 { permissive := ReadPermissive(ConfigWords(lines[2]), managed.value); }
    r := if permissive.None? then None else Some(Parsed(settings.value, managed.value, permissive.value));
  }

  method ReadSettings(words: seq<string>) returns (r: Option<seq<int>>)
    ensures r == ParseSettings(words)
  {
    var settings: seq<int> := [];
    for i := 0 to |words|
      invariant ParseSettings(words[..i]) == Some(settings)
    {
      assert words[..i + 1][..i] == words[..i];
      var value := ParseI32(words[i]);
      if value.None? {
        SettingsStayBad(words, i + 1);
        return None;
      }
      settings := settings + [value.value];
    }
    assert words[..|words|] == words;
    r := Some(settings);
  }

  method ReadManaged(words: seq<string>) returns (r: Option<set<int>>)
    ensures r == ManagedSet(words)
  {
    var managed: set<int> := {};
    for i := 0 to |words|
      invariant Bucket(ManagedNumbers(words)[..i], Anything()) == Some(managed)
    {
      BucketStep(ManagedNumbers(words), Anything(), i);
      var uid := ParseManaged(words[i]);
      if uid.None? || uid.value < MIN_APP_UID { return None; }
      managed := managed + {uid.value};
    }
    assert ManagedNumbers(words)[..|words|] == ManagedNumbers(words);
    r := Some(managed);
  }

  method ReadPermissive(words: seq<string>, managed: set<int>) returns (r: Option<set<int>>)
    ensures r == PermissiveSet(words, managed)
  {
    var permissive: set<int> := {};
    for i := 0 to |words|
      invariant Bucket(PermissiveNumbers(words)[..i], Member(managed)) == Some(permissive)
    {
      BucketStep(PermissiveNumbers(words), Member(managed), i);
      var uid := ParsePermissive(words[i]);
      if uid.None? || uid.value !in managed || uid.value < MIN_APP_UID { return None; }
      permissive := permissive + {uid.value};
    }
    assert PermissiveNumbers(words)[..|words|] == PermissiveNumbers(words);
    r := Some(permissive);
  }

  lemma {:induction false} SettingsStayBad(words: seq<string>, n: nat)
    requires n <= |words| && ParseSettings(words[..n]).None?
    ensures ParseSettings(words).None?
    decreases |words| - n
  {
    if n == |words| { assert words[..n] == words; }
    else { assert words[..n + 1][..n] == words[..n]; SettingsStayBad(words, n + 1); }
  }

  /** One more number either joins the set or spoils it for good. */
  lemma {:induction false} BucketStep(numbers: seq<Option<int>>, allowed: int -> bool, i: nat)
    requires i < |numbers| && Bucket(numbers[..i], allowed).Some?
    ensures var good := numbers[i].Some? && allowed(numbers[i].value) && numbers[i].value >= MIN_APP_UID;
            && Bucket(numbers[..i + 1], allowed)
               == (if good then Some(Bucket(numbers[..i], allowed).value + {numbers[i].value}) else None)
            && (!good ==> Bucket(numbers, allowed) == None)
  {
    assert numbers[..i + 1][..i] == numbers[..i];
    if Bucket(numbers[..i + 1], allowed).None? { BucketStaysBad(numbers, allowed, i + 1); }
  }

  lemma {:induction false} BucketStaysBad(numbers: seq<Option<int>>, allowed: int -> bool, n: nat)
    requires n <= |numbers| && Bucket(numbers[..n], allowed).None?
    ensures Bucket(numbers, allowed).None?
    decreases |numbers| - n
  {
    if n == |numbers| {
      assert numbers[..n] == numbers;
    } else {
      assert numbers[..n + 1][..n] == numbers[..n];
      BucketStaysBad(numbers, allowed, n + 1);
    }
  }

  // ---- Splitting undoes joining

  /** A word that neither trimming nor splitting touches. */
  predicate Solid(w: string) { w != [] && forall i :: 0 <= i < |w| ==> w[i] > ' ' }

  predicate AllSolid(words: seq<string>) { forall i :: 0 <= i < |words| ==> Solid(words[i]) }

  lemma {:induction false} FieldsOfOne(s: string, c: char)
    requires c !in s
    ensures Fields(s, c) == [s]
  {
    if s == [] {
    } else {
      FieldsOfOne(s[1..], c);
      assert [s[0]] + s[1..] == s;
    }
  }

  lemma {:induction false} FieldsOfMore(a: string, c: char, rest: string)
    requires c !in a
    ensures Fields(a + [c] + rest, c) == [a] + Fields(rest, c)
  {
    var s := a + [c] + rest;
    if a == [] {
      assert s[1..] == rest;
    } else {
      assert s[1..] == a[1..] + [c] + rest;
      FieldsOfMore(a[1..], c, rest);
      assert [a[0]] + a[1..] == a;
    }
  }

  lemma {:induction false} SpaceAtIs(s: string, n: nat)
    requires n <= |s| && (forall i :: 0 <= i < n ==> s[i] != ' ') && (n < |s| ==> s[n] == ' ')
    ensures SpaceAt(s) == n
  {
    if n == 0 {
    } else {
      SpaceAtIs(s[1..], n - 1);
    }
  }

  lemma {:induction false} JoinEnds(words: seq<string>)
    requires AllSolid(words) && words != []
    ensures var s := Join(words); s != [] && s[0] > ' ' && s[|s| - 1] > ' '
    ensures '\n' !in Join(words)
  {
    if |words| > 1 {
      JoinEnds(words[1..]);
      var rest := Join(words[1..]);
      assert Join(words)[|Join(words)| - 1] == rest[|rest| - 1];
    }
  }

  lemma {:induction false} RunsOfJoin(words: seq<string>)
    requires AllSolid(words)
    ensures Runs(Join(words)) == words
  {
    if |words| == 1 {
      SpaceAtIs(words[0], |words[0]|);
    } else if words != [] {
      var w, rest := words[0], Join(words[1..]);
      var s := w + " " + rest;
      RunsOfJoin(words[1..]);
      JoinEnds(words[1..]);
      SpaceAtIs(s, |w|);
      assert s[|w|..] == " " + rest && s[..|w|] == w;
      assert (" " + rest)[1..] == rest;
      assert SkipSpaces(" " + rest) == SkipSpaces(rest) == rest;
    }
  }

  lemma {:induction false} WordsOfJoin(words: seq<string>)
    requires AllSolid(words)
    ensures ConfigWords(NonEmpty(Join(words))) == words
    ensures words != [] ==> NonEmpty(Join(words)) == Join(words)
    ensures '\n' !in NonEmpty(Join(words))
  {
    if words == [] {
      assert TrimLeft(" ") == TrimLeft("") == "";
    } else {
      JoinEnds(words);
      RunsOfJoin(words);
    }
  }

  lemma DigitsAreSolid(s: string)
    requires s != [] && AllDigits(s)
    ensures Solid(s)
  {
    forall i | 0 <= i < |s| ensures s[i] > ' ' { assert IsDigit(s[i]); }
  }

  lemma TokensAreSolid(ns: seq<nat>, uids: seq<u32>)
    ensures AllSolid(Numbers(ns)) && AllSolid(Tokens(uids))
  {
    forall i | 0 <= i < |ns| ensures Solid(Decimal(ns[i])) { DigitsAreSolid(Decimal(ns[i])); }
    forall i | 0 <= i < |uids| ensures Solid(CanonicalToken(uids[i])) {
      DigitsAreSolid(Decimal5(uids[i]));
      DigitsAreSolid(Decimal(uids[i]));
    }
  }

  // ---- Each word is read back, or refused for the right reason

  lemma {:induction false} FiveDigits(n: nat)
    requires n >= 10_000
    ensures |Decimal(n)| >= 5
  {
    assert n / 10 >= 1000 && n / 10 / 10 >= 100 && n / 10 / 10 / 10 >= 10;
    assert |Decimal(n)| == 1 + |Decimal(n / 10)|;
    assert |Decimal(n / 10)| == 1 + |Decimal(n / 10 / 10)|;
    assert |Decimal(n / 10 / 10)| == 1 + |Decimal(n / 10 / 10 / 10)|;
    assert |Decimal(n / 10 / 10 / 10)| == 1 + |Decimal(n / 10 / 10 / 10 / 10)|;
  }

  lemma {:induction false} SmallNumberParses(n: nat)
    requires n <= 0x7FFF_FFFF
    ensures ParseI32(Decimal(n)) == Some(n) && ParsePermissive(Decimal(n)) == Some(n)
  {
    PrintedI32(n);
  }

  /** A token of the daemon passes exactly when its UID is an app UID. */
  lemma TokenPassesIffApp(uid: u32)
    requires uid <= MAX_LEGACY_UID
    ensures var p := ParseManaged(CanonicalToken(uid));
            if uid >= MIN_APP_UID then p == Some(uid) else p.None? || p.value < MIN_APP_UID
  {
    var d, t := Decimal5(uid), CanonicalToken(uid);
    UidAfterDigits(d, Decimal(uid));
    assert t[..|d|] == d && t[|d| + 3..] == Decimal(uid);
    SmallNumberParses(uid);
    if uid >= MIN_APP_UID { FiveDigits(uid); }
  }

  lemma {:induction false} SettingsReadBack(settings: seq<byte>)
    ensures ParseSettings(Numbers(settings)) == Some(settings)
  {
    if settings == [] {
    } else {
      var n := |settings| - 1;
      SettingsReadBack(settings[..n]);
      SmallNumberParses(settings[n]);
      assert Numbers(settings)[..n] == Numbers(settings[..n]);
      assert settings == settings[..n] + [settings[n]];
    }
  }

  function SetOf(uids: seq<u32>): (r: set<int>)
    ensures forall i :: 0 <= i < |uids| ==> uids[i] in r
  {
    if uids == [] then {} else SetOf(uids[..|uids| - 1]) + {uids[|uids| - 1]}
  }

  predicate AllApps(uids: seq<u32>) { forall i :: 0 <= i < |uids| ==> uids[i] >= MIN_APP_UID }

  /** Numbers that are the given UIDs, except that a system UID may also have failed to parse. */
  predicate Carries(numbers: seq<Option<int>>, uids: seq<u32>) {
    && |numbers| == |uids|
    && forall i :: 0 <= i < |uids| ==>
         if uids[i] >= MIN_APP_UID then numbers[i] == Some(uids[i])
         else numbers[i].None? || numbers[i].value < MIN_APP_UID
  }

  lemma {:induction false} BucketOfUids(numbers: seq<Option<int>>, uids: seq<u32>, allowed: int -> bool)
    requires Carries(numbers, uids) && forall i :: 0 <= i < |uids| ==> allowed(uids[i])
    ensures Bucket(numbers, allowed) == if AllApps(uids) then Some(SetOf(uids)) else None
  {
    if uids == [] {
    } else {
      var n := |uids| - 1;
      BucketOfUids(numbers[..n], uids[..n], allowed);
      assert AllApps(uids) <==> AllApps(uids[..n]) && uids[n] >= MIN_APP_UID;
    }
  }

  lemma {:induction false} ManagedReadBack(uids: seq<u32>)
    requires forall i :: 0 <= i < |uids| ==> uids[i] <= MAX_LEGACY_UID
    ensures ManagedSet(Tokens(uids)) == if AllApps(uids) then Some(SetOf(uids)) else None
  {
    var numbers := ManagedNumbers(Tokens(uids));
    forall i | 0 <= i < |uids|
      ensures if uids[i] >= MIN_APP_UID then numbers[i] == Some(uids[i])
              else numbers[i].None? || numbers[i].value < MIN_APP_UID
    {
      TokenPassesIffApp(uids[i]);
    }
    BucketOfUids(numbers, uids, Anything());
  }

  lemma {:induction false} PermissiveReadBack(uids: seq<u32>, managed: set<int>)
    requires forall i :: 0 <= i < |uids| ==> MIN_APP_UID <= uids[i] <= MAX_LEGACY_UID && uids[i] in managed
    ensures PermissiveSet(Numbers(uids), managed) == Some(SetOf(uids))
  {
    var numbers := PermissiveNumbers(Numbers(uids));
    forall i | 0 <= i < |uids| ensures numbers[i] == Some(uids[i]) {
      SmallNumberParses(uids[i]);
    }
    BucketOfUids(numbers, uids, Member(managed));
  }

  lemma PayloadSplits(a: string, b: string, c: string)
    requires '\n' !in a && '\n' !in b && '\n' !in c
    ensures PayloadLines(a + "\n" + (b + "\n" + c)) == [a, b, c]
  {
    FieldsOfOne(c, '\n');
    FieldsOfMore(b, '\n', c);
    FieldsOfMore(a, '\n', b + "\n" + c);
  }

  // ---- The theorem

  /** The apps that are neither whitelisted (40) nor free (50). */
  function ManagedUids(records: seq<Record>): set<int> {
    set r | r in records && r.mode !in {40, 50} :: r.uid as int
  }

  function PermissiveUids(records: seq<Record>): set<int> {
    set r | r in records && r.mode !in {40, 50} && r.permissive :: r.uid as int
  }

  lemma {:induction false} SetsAgree(records: seq<Record>)
    ensures SetOf(UidsOf(ManagedOf(records))) == ManagedUids(records)
    ensures SetOf(UidsOf(PermissiveOf(records))) == PermissiveUids(records)
  {
    UidSet(ManagedOf(records));
    UidSet(PermissiveOf(records));
  }

  lemma UidSet(records: seq<Record>)
    ensures SetOf(UidsOf(records)) == set r | r in records :: r.uid as int
  {
    var uids := set r | r in records :: r.uid as int;
    forall x | x in SetOf(UidsOf(records)) ensures x in uids {
      var i := SetOfIndex(UidsOf(records), x);
      assert records[i] in records;
    }
    forall x | x in uids ensures x in SetOf(UidsOf(records)) {
      var r :| r in records && r.uid == x;
      var i :| 0 <= i < |records| && records[i] == r;
      assert UidsOf(records)[i] in SetOf(UidsOf(records));
    }
  }

  lemma {:induction false} SetOfIndex(uids: seq<u32>, x: int) returns (i: nat)
    requires x in SetOf(uids)
    ensures i < |uids| && uids[i] == x
  {
    var n := |uids| - 1;
    if x == uids[n] { i := n; } else { i := SetOfIndex(uids[..n], x); }
  }

  /** The three lines of a payload come apart into the words they were joined from. */
  lemma {:induction false} PayloadWords(settings: seq<byte>, records: seq<Record>)
    requires Encode(settings, records).Some? && settings != []
    ensures var lines := PayloadLines(Encode(settings, records).value);
            && |lines| == 3
            && ConfigWords(lines[0]) == Numbers(settings)
            && ConfigWords(lines[1]) == Tokens(UidsOf(ManagedOf(records)))
            && ConfigWords(lines[2]) == Numbers(UidsOf(PermissiveOf(records)))
  {
    var managed, permissive := UidsOf(ManagedOf(records)), UidsOf(PermissiveOf(records));
    TokensAreSolid(settings, managed);
    TokensAreSolid(permissive, managed);
    WordsOfJoin(Numbers(settings));
    WordsOfJoin(Tokens(managed));
    WordsOfJoin(Numbers(permissive));
    PayloadSplits(Join(Numbers(settings)), NonEmpty(Join(Tokens(managed))), NonEmpty(Join(Numbers(permissive))));
  }

  predicate AllAppUids(records: seq<Record>) {
    forall r :: r in records && r.mode !in {40, 50} ==> r.uid >= 10_000
  }

  /** Every managed UID fits the five digits of the hook's format. */
  predicate AllFiveDigits(records: seq<Record>) {
    forall r :: r in records && r.mode !in {40, 50} ==> r.uid <= 99_999
  }

  lemma {:induction false} AppUidsAgree(records: seq<Record>)
    ensures AllApps(UidsOf(ManagedOf(records))) <==> AllAppUids(records)
  {
    var managed := ManagedOf(records);
    if AllApps(UidsOf(managed)) {
      forall r | r in records && Managed(r) ensures r.uid >= MIN_APP_UID {
        assert r in managed;
        var i :| 0 <= i < |managed| && managed[i] == r;
        assert UidsOf(managed)[i] >= MIN_APP_UID;
      }
    }
  }

  lemma {:induction false} PermissiveAreManaged(records: seq<Record>, i: nat)
    requires Encode([], records).Some? && AllAppUids(records) && i < |PermissiveOf(records)|
    ensures var uid := UidsOf(PermissiveOf(records))[i];
            MIN_APP_UID <= uid <= MAX_LEGACY_UID && uid in SetOf(UidsOf(ManagedOf(records)))
  {
    var r, managed := PermissiveOf(records)[i], ManagedOf(records);
    assert r in PermissiveOf(records) && r in managed;
    var j :| 0 <= j < |managed| && managed[j] == r;
    assert UidsOf(managed)[j] == r.uid;
  }

  /**
    The daemon can encode its records exactly when every managed UID has at most five digits. Such a payload is
    accepted by the hook exactly when every managed UID is an app UID, and then the hook holds the daemon's settings,
    managed apps and permissive apps.
   */
  lemma HookReadsWhatDaemonWrites(settings: seq<byte>, records: seq<Record>, capacity: nat)
    requires 1 <= |settings| <= capacity
    ensures Encode(settings, records).Some? <==> AllFiveDigits(records)
    ensures AllFiveDigits(records) ==>
              Parse(Encode(settings, records).value, capacity)
              == if AllAppUids(records) then Some(Parsed(settings, ManagedUids(records), PermissiveUids(records)))
                 else None
  {
    if AllFiveDigits(records) { PayloadIsRead(settings, records, capacity); }
  }

  lemma PayloadIsRead(settings: seq<byte>, records: seq<Record>, capacity: nat)
    requires Encode(settings, records).Some? && 1 <= |settings| <= capacity
    ensures Parse(Encode(settings, records).value, capacity)
            == if AllAppUids(records) then Some(Parsed(settings, ManagedUids(records), PermissiveUids(records)))
              else None
  {
    var managed, permissive := UidsOf(ManagedOf(records)), UidsOf(PermissiveOf(records));
    PayloadWords(settings, records);
    SettingsReadBack(settings);
    forall i | 0 <= i < |managed| ensures managed[i] <= MAX_LEGACY_UID {
      assert ManagedOf(records)[i] in ManagedOf(records);
    }
    ManagedReadBack(managed);
    AppUidsAgree(records);
    SetsAgree(records);
    if AllAppUids(records) {
      forall i | 0 <= i < |permissive|
        ensures MIN_APP_UID <= permissive[i] <= MAX_LEGACY_UID && permissive[i] in SetOf(managed)
      {
        PermissiveAreManaged(records, i);
      }
      PermissiveReadBack(permissive, SetOf(managed));
    }
  }

  /** Accepted payloads identify what they carry: equal text means equal settings and equal app sets. */
  lemma EncodingIsFaithful(s1: seq<byte>, r1: seq<Record>, s2: seq<byte>, r2: seq<Record>, capacity: nat)
    requires Encode(s1, r1).Some? && Encode(s1, r1) == Encode(s2, r2)
    requires 1 <= |s1| <= capacity && 1 <= |s2| <= capacity && AllAppUids(r1)
    ensures s1 == s2 && AllAppUids(r2) && ManagedUids(r1) == ManagedUids(r2) && PermissiveUids(r1) == PermissiveUids(r2)
  {
    HookReadsWhatDaemonWrites(s1, r1, capacity);
    HookReadsWhatDaemonWrites(s2, r2, capacity);
  }
}
