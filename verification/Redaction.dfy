/** Scrubbing JSON-like values before they are logged (backend/src/gatekey/errors.py).

    Python's `str.lower` is needed only for comparing with ASCII names, so `Lower` covers every
    character whose lower case is ASCII: the capitals and the Kelvin sign. */
module Redaction {
  import opened Options

  datatype Key = Name(text: string) | NotAString(id: int)

  datatype Scalar = Text(text: string) | Number(id: int)

  datatype Entry = Entry(key: Key, value: Json)

  /** A dict is its entries in insertion order. */
  datatype Json = Obj(entries: seq<Entry>) | Lst(items: seq<Json>) | Tup(items: seq<Json>) | Leaf(scalar: Scalar)

  const SECRET_NAMES: set<string> := {
    "api_key", "service_account_json", "private_key", "token", "authorization", "ciphertext",
    "nonce", "auth_tag", "master_key", "gatekey_admin_token", "gatekey_master_key", "secret",
    "secret_hash", "bearer_token", "webhook_url"}

  const PLACEHOLDER := Leaf(Text("***REDACTED***"))

  function LowerChar(c: char): char {
    if 'A' <= c <= 'Z' then (c as int + 32) as char
    else if c == '\U{212A}' then 'k'
    else c
  }

  function Lower(s: string): string {
    seq(|s|, i requires 0 <= i < |s| => LowerChar(s[i]))
  }

  predicate IsSecret(k: Key) {
    k.Name? && Lower(k.text) in SECRET_NAMES
  }

  predicate IsInput(k: Key) {
    k.Name? && Lower(k.text) == "input"
  }

  // ---------------------------------------------------------------- what the functions compute

  function Redacted(v: Json): Json
    decreases v, 1
  {
    match v
    case Obj(es) => Obj(RedactedEntries(es))
    case Lst(xs) => Lst(RedactedItems(xs))
    case Tup(xs) => Tup(RedactedItems(xs))
    case Leaf(_) => v
  }

  function RedactedEntry(e: Entry): Entry
    decreases e, 2
  {
    Entry(e.key, if IsSecret(e.key) then PLACEHOLDER else Redacted(e.value))
  }

  function RedactedEntries(es: seq<Entry>): seq<Entry>
    decreases es, 0
  {
    if es == [] then [] else [RedactedEntry(es[0])] + RedactedEntries(es[1..])
  }

  function RedactedItems(xs: seq<Json>): seq<Json>
    decreases xs, 0
  {
    if xs == [] then [] else [Redacted(xs[0])] + RedactedItems(xs[1..])
  }

  function Stripped(v: Json): Json
    decreases v, 1
  {
    match v
    case Obj(es) => Obj(StrippedEntries(es))
    case Lst(xs) => Lst(StrippedItems(xs))
    case Tup(xs) => Tup(StrippedItems(xs))
    case Leaf(_) => v
  }

  function StrippedEntry(e: Entry): Entry
    decreases e, 2
  {
    Entry(e.key, Stripped(e.value))
  }

  function StrippedEntries(es: seq<Entry>): seq<Entry>
    decreases es, 0
  {
    if es == [] then []
    else if IsInput(es[0].key) then StrippedEntries(es[1..])
    else [StrippedEntry(es[0])] + StrippedEntries(es[1..])
  }

  function StrippedItems(xs: seq<Json>): seq<Json>
    decreases xs, 0
  {
    if xs == [] then [] else [Stripped(xs[0])] + StrippedItems(xs[1..])
  }

  function RedactJsonSafe(v: Json): Json {
    Redacted(Stripped(v))
  }

  // ---------------------------------------------------------------- the loop of `redact`

  predicate HasKey(es: seq<Entry>, k: Key) {
    exists i :: 0 <= i < |es| && es[i].key == k
  }

  /** `d[k] = v` on a dict. */
  function DictSet(es: seq<Entry>, k: Key, v: Json): seq<Entry> {
    if es == [] then [Entry(k, v)]
    else if es[0].key == k then [Entry(k, v)] + es[1..]
    else [es[0]] + DictSet(es[1..], k, v)
  }

  lemma {:induction false} DictSetNewKey(es: seq<Entry>, k: Key, v: Json)
    requires !HasKey(es, k)
    ensures DictSet(es, k, v) == es + [Entry(k, v)]
  {
    if es != [] {
      forall i | 0 <= i < |es[1..]| ensures es[1..][i].key != k {
        assert es[1..][i] == es[i + 1];
      }
      DictSetNewKey(es[1..], k, v);
      assert es == [es[0]] + es[1..];
    }
  }

  /** The keys of every dict in the value are distinct, as Python guarantees. */
  predicate IsPython(v: Json)
    decreases v
  {
    match v
    case Obj(es) =>
      && (forall i, j :: 0 <= i < j < |es| ==> es[i].key != es[j].key)
      && (forall e <- es :: IsPython(e.value))
    case Lst(xs) => forall x <- xs :: IsPython(x)
    case Tup(xs) => forall x <- xs :: IsPython(x)
    case Leaf(_) => true
  }

  lemma {:induction false} RedactedEntriesAt(es: seq<Entry>)
    ensures |RedactedEntries(es)| == |es|
    ensures forall i :: 0 <= i < |es| ==> RedactedEntries(es)[i] == RedactedEntry(es[i])
  {
    if es != [] {
      RedactedEntriesAt(es[1..]);
    }
  }

  lemma {:induction false} RedactedItemsAt(xs: seq<Json>)
    ensures |RedactedItems(xs)| == |xs|
    ensures forall i :: 0 <= i < |xs| ==> RedactedItems(xs)[i] == Redacted(xs[i])
  {
    if xs != [] {
      RedactedItemsAt(xs[1..]);
    }
  }

  /** `redact` as written: a new dict filled key by key. */
  method Redact(v: Json) returns (r: Json)
    requires IsPython(v)
    ensures r == Redacted(v)
    decreases v
  {
    match v {
      case Obj(es) =>
        var redacted: seq<Entry> := [];
        RedactedEntriesAt(es);
        for i := 0 to |es|
          invariant redacted == RedactedEntries(es)[..i]
        {
          assert es[i] in es;
          var val := PLACEHOLDER;
          if !IsSecret(es[i].key) {
            val := Redact(es[i].value);
          }
          DictSetNewKey(redacted, es[i].key, val);
          redacted := DictSet(redacted, es[i].key, val);
        }
        r := Obj(redacted);
      case Lst(xs) =>
        var items := RedactEach(xs);
        r := Lst(items);
      case Tup(xs) =>
        var items := RedactEach(xs);
        r := Tup(items);
      case Leaf(_) =>
        r := v;
    }
  }

  method RedactEach(xs: seq<Json>) returns (items: seq<Json>)
    requires forall x <- xs :: IsPython(x)
    ensures items == RedactedItems(xs)
    decreases xs
  {
    items := [];
    RedactedItemsAt(xs);
    for i := 0 to |xs|
      invariant items == RedactedItems(xs)[..i]
    {
      var item := Redact(xs[i]);
      items := items + [item];
    }
  }

  // ---------------------------------------------------------------- algebraic laws

  lemma {:induction false} RedactTwice(v: Json)
    ensures Redacted(Redacted(v)) == Redacted(v)
    decreases v, 1
  {
    match v
    case Obj(es) => RedactEntriesTwice(es);
    case Lst(xs) => RedactItemsTwice(xs);
    case Tup(xs) => RedactItemsTwice(xs);
    case Leaf(_) =>
  }

  lemma {:induction false} RedactEntriesTwice(es: seq<Entry>)
    ensures RedactedEntries(RedactedEntries(es)) == RedactedEntries(es)
    decreases es, 0
  {
    if es != [] {
      assert es decreases to es[0];
      RedactTwice(es[0].value);
      RedactEntriesTwice(es[1..]);
    }
  }

  lemma {:induction false} RedactItemsTwice(xs: seq<Json>)
    ensures RedactedItems(RedactedItems(xs)) == RedactedItems(xs)
    decreases xs, 0
  {
    if xs != [] {
      RedactTwice(xs[0]);
      RedactItemsTwice(xs[1..]);
    }
  }

  lemma {:induction false} StripTwice(v: Json)
    ensures Stripped(Stripped(v)) == Stripped(v)
    decreases v, 1
  {
    match v
    case Obj(es) => StripEntriesTwice(es);
    case Lst(xs) => StripItemsTwice(xs);
    case Tup(xs) => StripItemsTwice(xs);
    case Leaf(_) =>
  }

  lemma {:induction false} StripEntriesTwice(es: seq<Entry>)
    ensures StrippedEntries(StrippedEntries(es)) == StrippedEntries(es)
    decreases es, 0
  {
    if es != [] {
      assert es decreases to es[0];
      StripTwice(es[0].value);
      StripEntriesTwice(es[1..]);
    }
  }

  lemma {:induction false} StripItemsTwice(xs: seq<Json>)
    ensures StrippedItems(StrippedItems(xs)) == StrippedItems(xs)
    decreases xs, 0
  {
    if xs != [] {
      StripTwice(xs[0]);
      StripItemsTwice(xs[1..]);
    }
  }

  lemma {:induction false} RedactAndStripCommute(v: Json)
    ensures Redacted(Stripped(v)) == Stripped(Redacted(v))
    decreases v, 1
  {
    match v
    case Obj(es) => RedactAndStripEntriesCommute(es);
    case Lst(xs) => RedactAndStripItemsCommute(xs);
    case Tup(xs) => RedactAndStripItemsCommute(xs);
    case Leaf(_) =>
  }

  lemma {:induction false} RedactAndStripEntriesCommute(es: seq<Entry>)
    ensures RedactedEntries(StrippedEntries(es)) == StrippedEntries(RedactedEntries(es))
    decreases es, 0
  {
    if es != [] {
      assert es decreases to es[0];
      RedactAndStripCommute(es[0].value);
      RedactAndStripEntriesCommute(es[1..]);
      assert RedactedEntries(es)[1..] == RedactedEntries(es[1..]);
      if !IsInput(es[0].key) {
        assert StrippedEntries(es)[1..] == StrippedEntries(es[1..]);
        assert RedactedEntry(StrippedEntry(es[0])) == StrippedEntry(RedactedEntry(es[0]));
      }
    }
  }

  lemma {:induction false} RedactAndStripItemsCommute(xs: seq<Json>)
    ensures RedactedItems(StrippedItems(xs)) == StrippedItems(RedactedItems(xs))
    decreases xs, 0
  {
    if xs != [] {
      RedactAndStripCommute(xs[0]);
      RedactAndStripItemsCommute(xs[1..]);
    }
  }

  /** Safe output stays as it is under either pass, hence under both. */
  lemma SafeIsAFixedPoint(v: Json)
    ensures var r := RedactJsonSafe(v); Redacted(r) == Stripped(r) == RedactJsonSafe(r) == r
  {
    RedactTwice(Stripped(v));
    RedactAndStripCommute(Stripped(v));
    StripTwice(v);
  }

  // ---------------------------------------------------------------- what the output reveals

  /** Values that differ only under secret names and in entries named "input". */
  ghost predicate Alike(a: Json, b: Json)
    decreases a, 1, 0
  {
    match (a, b)
    case (Obj(es), Obj(fs)) => AlikeEntries(es, fs)
    case (Lst(xs), Lst(ys)) => AlikeItems(xs, ys)
    case (Tup(xs), Tup(ys)) => AlikeItems(xs, ys)
    case (Leaf(x), Leaf(y)) => x == y
    case _ => false
  }

  ghost predicate AlikeEntries(es: seq<Entry>, fs: seq<Entry>)
    decreases es, 0, |fs|
  {
    if es != [] && IsInput(es[0].key) then AlikeEntries(es[1..], fs)
    else if fs != [] && IsInput(fs[0].key) then AlikeEntries(es, fs[1..])
    else if es == [] || fs == [] then es == fs
    else
      && AlikeEntry(es[0], fs[0])
      && AlikeEntries(es[1..], fs[1..])
  }

  ghost predicate AlikeEntry(e: Entry, f: Entry)
    decreases e, 2, 0
  {
    e.key == f.key && (IsSecret(e.key) || Alike(e.value, f.value))
  }

  ghost predicate AlikeItems(xs: seq<Json>, ys: seq<Json>)
    decreases xs, 0, 0
  {
    if xs == [] || ys == [] then xs == ys
    else Alike(xs[0], ys[0]) && AlikeItems(xs[1..], ys[1..])
  }

  lemma ConsInjective<T>(x: T, xs: seq<T>, y: T, ys: seq<T>)
    ensures [x] + xs == [y] + ys <==> x == y && xs == ys
  {
    if [x] + xs == [y] + ys {
      assert ([x] + xs)[0] == ([y] + ys)[0];
      assert xs == ([x] + xs)[1..] == ([y] + ys)[1..] == ys;
    }
  }

  /** Non-interference, exactly: two values have the same safe image if and only if they are alike.
      So the output depends on nothing under a secret name or in an "input" entry, and on
      everything else. */
  lemma {:induction false} SafeImagesEqualIffAlike(a: Json, b: Json)
    ensures RedactJsonSafe(a) == RedactJsonSafe(b) <==> Alike(a, b)
    decreases a, 1, 0
  {
    match (a, b)
    case (Obj(es), Obj(fs)) => SafeEntriesEqualIffAlike(es, fs);
    case (Lst(xs), Lst(ys)) => SafeItemsEqualIffAlike(xs, ys);
    case (Tup(xs), Tup(ys)) => SafeItemsEqualIffAlike(xs, ys);
    case _ =>
  }

  lemma {:induction false} SafeEntriesEqualIffAlike(es: seq<Entry>, fs: seq<Entry>)
    ensures RedactedEntries(StrippedEntries(es)) == RedactedEntries(StrippedEntries(fs)) <==> AlikeEntries(es, fs)
    decreases es, 0, |fs|
  {
    if es != [] && IsInput(es[0].key) {
      SafeEntriesEqualIffAlike(es[1..], fs);
    } else if fs != [] && IsInput(fs[0].key) {
      SafeEntriesEqualIffAlike(es, fs[1..]);
    } else if es != [] && fs != [] {
      assert es decreases to es[0];
      SafeImagesEqualIffAlike(es[0].value, fs[0].value);
      SafeEntriesEqualIffAlike(es[1..], fs[1..]);
      var e, f := Entry(es[0].key, Stripped(es[0].value)), Entry(fs[0].key, Stripped(fs[0].value));
      assert StrippedEntries(es) == [e] + StrippedEntries(es[1..]);
      assert StrippedEntries(fs) == [f] + StrippedEntries(fs[1..]);
      ConsInjective(RedactedEntry(e), RedactedEntries(StrippedEntries(es[1..])),
                    RedactedEntry(f), RedactedEntries(StrippedEntries(fs[1..])));
    }
  }

  lemma {:induction false} SafeItemsEqualIffAlike(xs: seq<Json>, ys: seq<Json>)
    ensures RedactedItems(StrippedItems(xs)) == RedactedItems(StrippedItems(ys)) <==> AlikeItems(xs, ys)
    decreases xs, 0, 0
  {
    if xs != [] && ys != [] {
      SafeImagesEqualIffAlike(xs[0], ys[0]);
      SafeItemsEqualIffAlike(xs[1..], ys[1..]);
      ConsInjective(RedactJsonSafe(xs[0]), RedactedItems(StrippedItems(xs[1..])),
                    RedactJsonSafe(ys[0]), RedactedItems(StrippedItems(ys[1..])));
    }
  }

  // ---------------------------------------------------------------- path by path

  datatype Move = Field(key: Key) | Index(i: nat) | Slot(i: nat)

  predicate Secret(m: Move) {
    m.Field? && IsSecret(m.key)
  }

  predicate Input(m: Move) {
    m.Field? && IsInput(m.key)
  }

  function Lookup(es: seq<Entry>, k: Key): Option<Json> {
    if es == [] then None
    else if es[0].key == k then Some(es[0].value)
    else Lookup(es[1..], k)
  }

  function Go(v: Json, m: Move): Option<Json> {
    match (v, m)
    case (Obj(es), Field(k)) => Lookup(es, k)
    case (Lst(xs), Index(i)) => if i < |xs| then Some(xs[i]) else None
    case (Tup(xs), Slot(i)) => if i < |xs| then Some(xs[i]) else None
    case _ => None
  }

  /** The value at the end of a path. */
  function At(v: Json, path: seq<Move>): Option<Json>
    decreases |path|
  {
    if path == [] then Some(v)
    else
      var next := Go(v, path[0]);
      if next.None? then None else At(next.value, path[1..])
  }

  lemma {:induction false} LookupSafe(es: seq<Entry>, k: Key)
    ensures var got := Lookup(es, k);
            Lookup(RedactedEntries(StrippedEntries(es)), k) ==
              if IsInput(k) || got.None? then None
              else Some(if IsSecret(k) then PLACEHOLDER else RedactJsonSafe(got.value))
  {
    if es != [] {
      LookupSafe(es[1..], k);
    }
  }

  lemma {:induction false} SafeItemsAt(xs: seq<Json>)
    ensures |RedactedItems(StrippedItems(xs))| == |xs|
    ensures forall i :: 0 <= i < |xs| ==> RedactedItems(StrippedItems(xs))[i] == RedactJsonSafe(xs[i])
  {
    if xs != [] {
      var first, rest := Stripped(xs[0]), StrippedItems(xs[1..]);
      SafeItemsAt(xs[1..]);
      assert ([first] + rest)[1..] == rest;
      assert RedactedItems([first] + rest) == [Redacted(first)] + RedactedItems(rest);
    }
  }

  lemma GoSafe(v: Json, m: Move)
    ensures var got := Go(v, m);
            Go(RedactJsonSafe(v), m) ==
              if Input(m) || got.None? then None
              else Some(if Secret(m) then PLACEHOLDER else RedactJsonSafe(got.value))
  {
    match v
    case Obj(es) => if m.Field? { LookupSafe(es, m.key); }
    case Lst(xs) => SafeItemsAt(xs);
    case Tup(xs) => SafeItemsAt(xs);
    case Leaf(_) =>
  }

  /** Path by path: a path survives exactly when it existed, enters no "input" entry and goes
      nowhere below a secret name. Where it ends at a secret name the value is the placeholder;
      everywhere else it is the safe image of what was there, with the same keys and shape. */
  lemma {:induction false} SafeAtPath(v: Json, path: seq<Move>)
    ensures var got := At(v, path);
            At(RedactJsonSafe(v), path) ==
              if got.None? || (exists m <- path :: Input(m)) || (exists i :: 0 <= i < |path| - 1 && Secret(path[i]))
              then None
              else Some(if path != [] && Secret(path[|path| - 1]) then PLACEHOLDER else RedactJsonSafe(got.value))
    decreases |path|
  {
    if path != [] {
      GoSafe(v, path[0]);
      var next := Go(v, path[0]);
      var rest := path[1..];
      assert path == [path[0]] + rest;
      if next.Some? && !Input(path[0]) {
        if Secret(path[0]) {
          if rest != [] {
            assert Go(PLACEHOLDER, rest[0]).None?;
          }
        } else {
          SafeAtPath(next.value, rest);
          assert forall i :: 0 <= i < |rest| - 1 ==> rest[i] == path[i + 1];
          assert forall i :: 0 < i < |path| - 1 ==> path[i] == rest[i - 1];
          assert forall m :: m in path <==> m == path[0] || m in rest;
        }
      }
    }
  }

  // ---------------------------------------------------------------- which names

  /** `s` is the lower-case name `n`, any of its letters possibly written as its capital, or, for a k,
      as the Kelvin sign. */
  predicate Spells(s: string, n: string) {
    |s| == |n| && forall i :: 0 <= i < |s| ==> SpellsChar(s[i], n[i])
  }

  predicate SpellsChar(c: char, small: char) {
    c == small || ('a' <= small <= 'z' && c as int + 32 == small as int) || (small == 'k' && c == '\U{212A}')
  }

  /** The same string but for the case of ASCII letters. */
  predicate SameButForCase(s: string, t: string) {
    |s| == |t| && forall i :: 0 <= i < |s| ==>
      s[i] == t[i] ||
      ('A' <= s[i] <= 'Z' && t[i] as int == s[i] as int + 32) ||
      ('A' <= t[i] <= 'Z' && s[i] as int == t[i] as int + 32)
  }

  /** No capitals, no Kelvin sign. */
  predicate AllSmall(n: string) {
    forall i :: 0 <= i < |n| ==> n[i] == '_' || 'a' <= n[i] <= 'z'
  }

  lemma LowerIffSpells(s: string, n: string)
    requires AllSmall(n)
    ensures Lower(s) == n <==> Spells(s, n)
  {
    assert Lower(s) == n <==> |s| == |n| && forall i :: 0 <= i < |s| ==> LowerChar(s[i]) == n[i];
    if |s| == |n| {
      forall i | 0 <= i < |s| ensures LowerChar(s[i]) == n[i] <==> SpellsChar(s[i], n[i]) {
      }
    }
  }

  lemma NamesAreSmall()
    ensures forall n <- SECRET_NAMES :: AllSmall(n)
    ensures AllSmall("input")
  {
    ShortNamesAreSmall();
    LongNamesAreSmall();
    LongestNamesAreSmall();
  }

  lemma ShortNamesAreSmall()
    ensures forall n <- {"api_key", "token", "nonce", "auth_tag", "secret", "secret_hash", "input"} :: AllSmall(n)
  {
  }

  lemma LongNamesAreSmall()
    ensures forall n <- {"private_key", "authorization", "ciphertext", "master_key", "bearer_token", "webhook_url"} :: AllSmall(n)
  {
  }

  lemma LongestNamesAreSmall()
    ensures forall n <- {"service_account_json", "gatekey_admin_token", "gatekey_master_key"} :: AllSmall(n)
  {
  }

  /** A name is secret exactly when it spells one of these fifteen, in whatever case. */
  lemma SecretIff(s: string)
    ensures IsSecret(Name(s)) <==>
              exists n :: Spells(s, n) && n in {
                "api_key", "service_account_json", "private_key", "token", "authorization",
                "ciphertext", "nonce", "auth_tag", "master_key", "gatekey_admin_token",
                "gatekey_master_key", "secret", "secret_hash", "bearer_token", "webhook_url"}
    ensures IsInput(Name(s)) <==> Spells(s, "input")
  {
    NamesAreSmall();
    LowerIffSpells(s, "input");
    forall n | n in SECRET_NAMES ensures Lower(s) == n <==> Spells(s, n) {
      LowerIffSpells(s, n);
    }
  }

  /** Case makes no difference. */
  lemma CaseIsIgnored(s: string, t: string)
    requires SameButForCase(s, t)
    ensures IsSecret(Name(s)) <==> IsSecret(Name(t))
    ensures IsInput(Name(s)) <==> IsInput(Name(t))
  {
    assert forall i :: 0 <= i < |s| ==> LowerChar(s[i]) == LowerChar(t[i]);
    assert Lower(s) == Lower(t);
  }

  /** A secret name of ASCII characters is one of the fifteen but for its case. */
  lemma AsciiSecretIff(s: string)
    requires forall c <- s :: c as int < 128
    ensures IsSecret(Name(s)) <==> exists n <- SECRET_NAMES :: SameButForCase(s, n)
  {
    NamesAreSmall();
    SecretIff(s);
    forall n | n in SECRET_NAMES ensures Lower(s) == n <==> SameButForCase(s, n) {
      LowerIffSpells(s, n);
      AsciiSpellsIff(s, n);
    }
  }

  lemma AsciiSpellsIff(s: string, n: string)
    requires AllSmall(n) && forall c <- s :: c as int < 128
    ensures Spells(s, n) <==> SameButForCase(s, n)
  {
    assert forall i :: 0 <= i < |s| ==> s[i] in s;
  }

  /** Wherever an entry with one of those names comes out, in whatever case and however deep, its
      value is the literal placeholder. */
  lemma SecretsComeOutAsPlaceholder(v: Json, path: seq<Move>, s: string, n: string)
    requires path != [] && path[|path| - 1] == Field(Name(s)) && Spells(s, n) && n in SECRET_NAMES
    requires At(RedactJsonSafe(v), path).Some?
    ensures At(RedactJsonSafe(v), path) == Some(Leaf(Text("***REDACTED***")))
  {
    IsSecretSpelling(s, n);
    EndsAtSecret(v, path);
  }

  lemma IsSecretSpelling(s: string, n: string)
    requires n in SECRET_NAMES && Spells(s, n)
    ensures IsSecret(Name(s))
  {
    NamesAreSmall();
    LowerIffSpells(s, n);
  }

  lemma EndsAtSecret(v: Json, path: seq<Move>)
    requires path != [] && Secret(path[|path| - 1]) && At(RedactJsonSafe(v), path).Some?
    ensures At(RedactJsonSafe(v), path) == Some(PLACEHOLDER)
  {
    SafeAtPath(v, path);
  }

  /** No path into an entry named "input", in whatever case, comes out. */
  lemma InputsAreGone(v: Json, path: seq<Move>, i: nat, s: string)
    requires i < |path| && path[i] == Field(Name(s)) && Spells(s, "input")
    ensures At(RedactJsonSafe(v), path).None?
  {
    SecretIff(s);
    SafeAtPath(v, path);
    assert path[i] in path;
  }

  /** A scalar comes out as it was when no name on the way to it spells one of the sixteen. */
  lemma OthersComeOutUnchanged(v: Json, path: seq<Move>, x: Scalar)
    requires At(v, path) == Some(Leaf(x))
    requires forall s, n :: Field(Name(s)) in path && Spells(s, n) ==> n !in SECRET_NAMES && n != "input"
    ensures At(RedactJsonSafe(v), path) == Some(Leaf(x))
  {
    forall m | m in path ensures !Secret(m) && !Input(m) {
      if m.Field? && m.key.Name? {
        SecretIff(m.key.text);
      }
    }
    SafeAtPath(v, path);
  }

  // ---------------------------------------------------------------- order and shape

  function Keys(es: seq<Entry>): seq<Key> {
    if es == [] then [] else [es[0].key] + Keys(es[1..])
  }

  function NotInput(ks: seq<Key>): seq<Key> {
    if ks == [] then [] else (if IsInput(ks[0]) then [] else [ks[0]]) + NotInput(ks[1..])
  }

  lemma {:induction false} RedactedKeys(es: seq<Entry>)
    ensures Keys(RedactedEntries(es)) == Keys(es)
  {
    if es != [] {
      RedactedKeys(es[1..]);
      assert RedactedEntries(es)[1..] == RedactedEntries(es[1..]);
    }
  }

  lemma {:induction false} StrippedKeys(es: seq<Entry>)
    ensures Keys(StrippedEntries(es)) == NotInput(Keys(es))
  {
    if es != [] {
      StrippedKeys(es[1..]);
      assert Keys(es)[1..] == Keys(es[1..]);
      if !IsInput(es[0].key) {
        assert StrippedEntries(es)[1..] == StrippedEntries(es[1..]);
      }
    }
  }

  /** Every dict whose path survives keeps its keys in their order, without the "input" ones. */
  lemma SafeKeepsKeyOrder(v: Json, path: seq<Move>)
    requires At(v, path).Some? && At(v, path).value.Obj?
    requires At(RedactJsonSafe(v), path).Some? && (path != [] ==> !Secret(path[|path| - 1]))
    ensures var image := At(RedactJsonSafe(v), path).value;
            image.Obj? && Keys(image.entries) == NotInput(Keys(At(v, path).value.entries))
  {
    var es := At(v, path).value.entries;
    SafeAtPath(v, path);
    StrippedKeys(es);
    RedactedKeys(StrippedEntries(es));
  }

  /** Every list or tuple whose path survives stays one, with as many items. */
  lemma SafeKeepsLength(v: Json, path: seq<Move>)
    requires At(v, path).Some? && (At(v, path).value.Lst? || At(v, path).value.Tup?)
    requires At(RedactJsonSafe(v), path).Some? && (path != [] ==> !Secret(path[|path| - 1]))
    ensures var was, image := At(v, path).value, At(RedactJsonSafe(v), path).value;
            && (image.Lst? <==> was.Lst?) && (image.Tup? <==> was.Tup?) && |image.items| == |was.items|
  {
    SafeAtPath(v, path);
    SafeItemsAt(At(v, path).value.items);
  }
}
