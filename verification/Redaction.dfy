/** Redaction of logged events: which differences between two events a log can
    still show, and which it hides. */
module Redaction {
  import opened Common

  datatype Number = Finite(r: real) | Infinite | NaN

  /** A decoded JSON value; a dictionary keeps its insertion order. */
  datatype Value =
    | Null
    | Bool(b: bool)
    | Int(n: int)
    | Float(f: Number)
    | Str(s: string)
    | List(items: seq<Value>)
    | Dict(entries: seq<Entry>)

  datatype Entry = Entry(key: string, value: Value)

  /** What the language runtime decides: lower case, integers in strings, which characters
      outside ASCII belong to words, and how deep a nesting its recursion limit lets it copy. */
  datatype Runtime = Runtime(lower: string -> string, parse: string -> Option<int>, isWordSymbol: char -> bool, maxDepth: nat)

  datatype KeyKind = Contact | Address | Amount | Other

  function KindOf(key: string): KeyKind {
    if key in {"contact_info", "contactinfo", "contact", "email", "phone", "mobile"} then Contact
    else if key in {"payer", "payer_address", "payeraddress", "initiator", "merchant", "merchant_address",
                    "merchantaddress", "address", "from", "to"} then Address
    else if key in {"amount", "refund_amount", "refundamount", "total", "fee", "platform_fee", "platformfee"} then Amount
    else Other
  }

  /** Keys are compared in lower case. */
  function Kind(rt: Runtime, key: string): KeyKind {
    KindOf(rt.lower(key))
  }

  // ── Addresses ─────────────────────────────────────────────────────────────

  const ELLIPSIS: char := '\U{2026}'

  function Truncate(s: string): string {
    if |s| >= 12 then s[..8] + [ELLIPSIS] + s[|s| - 4..] else s
  }

  /** Truncation shows the two ends of a long text, and all of a short one. */
  lemma TruncateKernel(s: string, t: string)
    ensures Truncate(s) == Truncate(t) <==>
              s == t || (|s| >= 12 && |t| >= 12 && s[..8] == t[..8] && s[|s| - 4..] == t[|t| - 4..])
  {
    if |s| >= 12 {
      assert Truncate(s)[..8] == s[..8] && Truncate(s)[9..] == s[|s| - 4..];
    }
    if |t| >= 12 {
      assert Truncate(t)[..8] == t[..8] && Truncate(t)[9..] == t[|t| - 4..];
    }
  }

  predicate IsWord(rt: Runtime, c: char) {
    'a' <= c <= 'z' || 'A' <= c <= 'Z' || '0' <= c <= '9' || c == '_' || (c as int >= 128 && rt.isWordSymbol(c))
  }

  predicate IsBase32(c: char) {
    'A' <= c <= 'Z' || '2' <= c <= '7'
  }

  /** What the address pattern matches between two word boundaries: 55 characters. */
  predicate IsAddressWord(w: string) {
    |w| == 55 && w[0] == 'G' && forall i :: 0 < i < 55 ==> IsBase32(w[i])
  }

  /** The length of the run of word characters at the start of `s`. */
  function WordLength(rt: Runtime, s: string): (n: nat)
    ensures n <= |s|
  {
    if s == [] || !IsWord(rt, s[0]) then 0 else 1 + WordLength(rt, s[1..])
  }

  function Mask(w: string): string {
    if IsAddressWord(w) then Truncate(w) else w
  }

  /** Every whole word that looks like an address is truncated. */
  function Scrub(rt: Runtime, s: string): string
    decreases |s|
  {
    if s == [] then [] else
    var n := WordLength(rt, s);
    if n == 0 then [s[0]] + Scrub(rt, s[1..]) else Mask(s[..n]) + Scrub(rt, s[n..])
  }

  ghost predicate AllWord(rt: Runtime, w: string) {
    forall i :: 0 <= i < |w| ==> IsWord(rt, w[i])
  }

  lemma {:induction false} WordRun(rt: Runtime, w: string, rest: string)
    requires AllWord(rt, w) && (rest == [] || !IsWord(rt, rest[0]))
    ensures WordLength(rt, w + rest) == |w|
  {
    if w != [] {
      WordRun(rt, w[1..], rest);
      assert (w + rest)[1..] == w[1..] + rest;
    } else {
      assert w + rest == rest;
    }
  }

  lemma ScrubRun(rt: Runtime, w: string, rest: string)
    requires AllWord(rt, w) && (rest == [] || !IsWord(rt, rest[0]))
    ensures Scrub(rt, w + rest) == Mask(w) + Scrub(rt, rest)
  {
    WordRun(rt, w, rest);
    if w == [] {
      assert w + rest == rest && Mask(w) == w;
    } else {
      assert (w + rest)[..|w|] == w && (w + rest)[|w|..] == rest;
    }
  }

  lemma ScrubSeparator(rt: Runtime, c: char, rest: string)
    requires !IsWord(rt, c)
    ensures Scrub(rt, [c] + rest) == [c] + Scrub(rt, rest)
  {
    assert ([c] + rest)[1..] == rest;
  }

  /** A text as the words between its separators: word, separator, word, and so on. */
  function Joined(words: seq<string>, separators: string): string
    requires |words| == |separators| + 1
  {
    if separators == [] then words[0] else words[0] + ([separators[0]] + Joined(words[1..], separators[1..]))
  }

  function Masked(words: seq<string>): seq<string> {
    seq(|words|, i requires 0 <= i < |words| => Mask(words[i]))
  }

  /** The text is scrubbed word by word: every word is masked by itself, whatever stands
      around it, and what separates words stays. */
  lemma {:induction false} ScrubWords(rt: Runtime, words: seq<string>, separators: string)
    requires |words| == |separators| + 1
    requires forall i :: 0 <= i < |words| ==> AllWord(rt, words[i])
    requires forall i :: 0 <= i < |separators| ==> !IsWord(rt, separators[i])
    ensures Scrub(rt, Joined(words, separators)) == Joined(Masked(words), separators)
    decreases |separators|
  {
    if separators == [] {
      ScrubRun(rt, words[0], []);
      assert words[0] + [] == words[0] && Mask(words[0]) + [] == Mask(words[0]);
    } else {
      var rest := Joined(words[1..], separators[1..]);
      ScrubWords(rt, words[1..], separators[1..]);
      ScrubRun(rt, words[0], [separators[0]] + rest);
      ScrubSeparator(rt, separators[0], rest);
      assert Masked(words)[1..] == Masked(words[1..]);
    }
  }

  /** Every text is such a sequence of words and separators. */
  lemma {:induction false} WordsOf(rt: Runtime, s: string) returns (words: seq<string>, separators: string)
    ensures |words| == |separators| + 1 && s == Joined(words, separators)
    ensures forall i :: 0 <= i < |words| ==> AllWord(rt, words[i])
    ensures forall i :: 0 <= i < |separators| ==> !IsWord(rt, separators[i])
  {
    if s == [] {
      words, separators := [[]], [];
    } else {
      var rest, others := WordsOf(rt, s[1..]);
      if IsWord(rt, s[0]) {
        words, separators := [[s[0]] + rest[0]] + rest[1..], others;
        assert words[1..] == rest[1..];
      } else {
        words, separators := [[]] + rest, [s[0]] + others;
        assert words[1..] == rest && separators[1..] == others;
      }
      assert s == [s[0]] + s[1..];
    }
  }

  /** The pattern is one character short: a Stellar address has 56 characters, and one
      standing as a word of its own in a text is left as it is. */
  lemma FullAddressStays(rt: Runtime, address: string, rest: string)
    requires |address| == 56 && forall i :: 0 <= i < 56 ==> IsBase32(address[i])
    requires rest == [] || !IsWord(rt, rest[0])
    ensures Scrub(rt, address + rest) == address + Scrub(rt, rest)
  {
    ScrubRun(rt, address, rest);
  }

  // ── Amounts ───────────────────────────────────────────────────────────────

  datatype Conversion = Whole(n: int) | NotNumeric | Overflow

  function Truncated(r: real): int {
    if r < 0.0 then -((-r).Floor) else r.Floor
  }

  /** The integer conversion; of an infinity it raises an error the caller does not catch. */
  function ToInt(rt: Runtime, v: Value): Conversion {
    match v
    case Int(n) => Whole(n)
    case Bool(b) => Whole(if b then 1 else 0)
    case Float(Finite(r)) => Whole(Truncated(r))
    case Float(Infinite) => Overflow
    case Str(s) => if rt.parse(s).Some? then Whole(rt.parse(s).value) else NotNumeric
    case _ => NotNumeric
  }

  const BOUNDS: seq<int> := [1_000, 10_000, 100_000, 1_000_000, 10_000_000, 100_000_000]

  function Label(c: Conversion): string {
    match c
    case NotNumeric => "<non-numeric>"
    case Overflow => ""
    case Whole(n) =>
      if n < 1_000 then "<1K"
      else if n < 10_000 then "1K\U{2013}10K"
      else if n < 100_000 then "10K\U{2013}100K"
      else if n < 1_000_000 then "100K\U{2013}1M"
      else if n < 10_000_000 then "1M\U{2013}10M"
      else if n < 100_000_000 then "10M\U{2013}100M"
      else "\U{2265}100M"
  }

  /** No bucket bound lies between the two. */
  predicate SameBucket(m: int, n: int) {
    forall i :: 0 <= i < |BOUNDS| ==> (m < BOUNDS[i] <==> n < BOUNDS[i])
  }

  predicate SameAmount(a: Conversion, b: Conversion) {
    match (a, b)
    case (Whole(m), Whole(n)) => SameBucket(m, n)
    case _ => a == b
  }

  lemma LabelKernel(a: Conversion, b: Conversion)
    ensures Label(a) == Label(b) <==> SameAmount(a, b)
  {
    if a.Whole? && b.Whole? {
      SameBucketIsSameLabel(a.n, b.n);
    }
  }

  lemma SameBucketIsSameLabel(m: int, n: int)
    ensures SameBucket(m, n) <==> Label(Whole(m)) == Label(Whole(n))
  {
    var x, y := Label(Whole(m)), Label(Whole(n));
    assert SameBucket(m, n) <==>
      forall i :: 0 <= i < 6 ==> (m < BOUNDS[i] <==> n < BOUNDS[i]);
    assert BOUNDS[0] == 1_000 && BOUNDS[1] == 10_000 && BOUNDS[2] == 100_000;
    assert BOUNDS[3] == 1_000_000 && BOUNDS[4] == 10_000_000 && BOUNDS[5] == 100_000_000;
    if |x| == |y| && |x| > 2 {
      assert x == y ==> x[1] == y[1] && x[2] == y[2];
    }
  }

  // ── Events ────────────────────────────────────────────────────────────────

  /** The redacted dictionary or list; its keys, lengths and order stay. */
  function Redact(rt: Runtime, v: Value): Value
    decreases v, 0
  {
    match v
    case Dict(entries) =>
      Dict(seq(|entries|, i requires 0 <= i < |entries| =>
        Entry(entries[i].key, RedactField(rt, Kind(rt, entries[i].key), entries[i].value))))
    case List(items) => List(seq(|items|, i requires 0 <= i < |items| => RedactItem(rt, items[i])))
    case _ => v
  }

  function RedactField(rt: Runtime, kind: KeyKind, v: Value): Value
    decreases v, 1
  {
    match kind
    case Contact => Str("[REDACTED]")
    case Address => if v.Str? then Str(Truncate(v.s)) else if v.Dict? then Redact(rt, v) else v
    case Amount => Str(Label(ToInt(rt, v)))
    case Other => if v.Str? then Str(Scrub(rt, v.s)) else Redact(rt, v)
  }

  /** Within a list only dictionaries and strings are looked at. */
  function RedactItem(rt: Runtime, v: Value): Value
    decreases v, 1
  {
    if v.Dict? then Redact(rt, v) else if v.Str? then Str(Scrub(rt, v.s)) else v
  }

  /** No infinite amount stands where the code converts it. */
  predicate Completes(rt: Runtime, v: Value)
    decreases v, 0
  {
    match v
    case Dict(entries) =>
      forall i :: 0 <= i < |entries| ==> FieldCompletes(rt, Kind(rt, entries[i].key), entries[i].value)
    case List(items) => forall i :: 0 <= i < |items| ==> items[i].Dict? ==> Completes(rt, items[i])
    case _ => true
  }

  predicate FieldCompletes(rt: Runtime, kind: KeyKind, v: Value)
    decreases v, 1
  {
    match kind
    case Contact => true
    case Address => v.Dict? ==> Completes(rt, v)
    case Amount => !ToInt(rt, v).Overflow?
    case Other => Completes(rt, v)
  }

  /** Two values that differ only where redaction is blind. */
  predicate Similar(rt: Runtime, a: Value, b: Value)
    decreases a, 0
  {
    match (a, b)
    case (Dict(xs), Dict(ys)) =>
      |xs| == |ys| && forall i :: 0 <= i < |xs| ==>
        xs[i].key == ys[i].key && SimilarField(rt, Kind(rt, xs[i].key), xs[i].value, ys[i].value)
    case (List(xs), List(ys)) =>
      |xs| == |ys| && forall i :: 0 <= i < |xs| ==> SimilarItem(rt, xs[i], ys[i])
    case _ => a == b
  }

  predicate SimilarField(rt: Runtime, kind: KeyKind, a: Value, b: Value)
    decreases a, 1
  {
    match kind
    case Contact => true
    case Address =>
      if a.Str? && b.Str? then
        a.s == b.s || (|a.s| >= 12 && |b.s| >= 12 && a.s[..8] == b.s[..8] && a.s[|a.s| - 4..] == b.s[|b.s| - 4..])
      else if a.Dict? && b.Dict? then Similar(rt, a, b)
      else a == b
    case Amount => SameAmount(ToInt(rt, a), ToInt(rt, b))
    case Other => if a.Str? && b.Str? then Scrub(rt, a.s) == Scrub(rt, b.s) else Similar(rt, a, b)
  }

  predicate SimilarItem(rt: Runtime, a: Value, b: Value)
    decreases a, 1
  {
    if a.Dict? && b.Dict? then Similar(rt, a, b)
    else if a.Str? && b.Str? then Scrub(rt, a.s) == Scrub(rt, b.s)
    else a == b
  }

  /** What a log shows is exactly what Similar keeps apart. */
  lemma {:induction false} Kernel(rt: Runtime, a: Value, b: Value)
    ensures Redact(rt, a) == Redact(rt, b) <==> Similar(rt, a, b)
    decreases a, 0
  {
    if a.Dict? && b.Dict? && |a.entries| == |b.entries| {
      forall i | 0 <= i < |a.entries| && a.entries[i].key == b.entries[i].key
        ensures SimilarField(rt, Kind(rt, a.entries[i].key), a.entries[i].value, b.entries[i].value) <==>
                SameEntry(rt, a.entries[i], b.entries[i])
      {
        FieldKernel(rt, Kind(rt, a.entries[i].key), a.entries[i].value, b.entries[i].value);
      }
      DictEqual(rt, a, b);
    } else if a.List? && b.List? && |a.items| == |b.items| {
      forall i | 0 <= i < |a.items|
        ensures SimilarItem(rt, a.items[i], b.items[i]) <==> RedactItem(rt, a.items[i]) == RedactItem(rt, b.items[i])
      {
        ItemKernel(rt, a.items[i], b.items[i]);
      }
      ListEqual(rt, a, b);
    } else {
      LengthsShow(rt, a, b);
    }
  }

  lemma LengthsShow(rt: Runtime, a: Value, b: Value)
    ensures a.Dict? ==> |Redact(rt, a).entries| == |a.entries|
    ensures b.Dict? ==> |Redact(rt, b).entries| == |b.entries|
    ensures a.List? ==> |Redact(rt, a).items| == |a.items|
    ensures b.List? ==> |Redact(rt, b).items| == |b.items|
  {
  }

  predicate SameEntry(rt: Runtime, x: Entry, y: Entry) {
    && x.key == y.key
    && RedactField(rt, Kind(rt, x.key), x.value) == RedactField(rt, Kind(rt, x.key), y.value)
  }

  lemma DictEqual(rt: Runtime, a: Value, b: Value)
    requires a.Dict? && b.Dict? && |a.entries| == |b.entries|
    ensures Redact(rt, a) == Redact(rt, b) <==>
              forall i :: 0 <= i < |a.entries| ==> SameEntry(rt, a.entries[i], b.entries[i])
  {
    var x, y := Redact(rt, a).entries, Redact(rt, b).entries;
    if Redact(rt, a) == Redact(rt, b) {
      forall i | 0 <= i < |a.entries| ensures SameEntry(rt, a.entries[i], b.entries[i]) {
        assert x[i] == y[i];
      }
    }
  }

  lemma ListEqual(rt: Runtime, a: Value, b: Value)
    requires a.List? && b.List? && |a.items| == |b.items|
    ensures Redact(rt, a) == Redact(rt, b) <==> forall i :: 0 <= i < |a.items| ==> RedactItem(rt, a.items[i]) == RedactItem(rt, b.items[i])
  {
    var x, y := Redact(rt, a).items, Redact(rt, b).items;
    if Redact(rt, a) == Redact(rt, b) {
      forall i | 0 <= i < |a.items| ensures RedactItem(rt, a.items[i]) == RedactItem(rt, b.items[i]) {
        assert x[i] == y[i];
      }
    }
  }

  lemma {:induction false} FieldKernel(rt: Runtime, kind: KeyKind, a: Value, b: Value)
    ensures RedactField(rt, kind, a) == RedactField(rt, kind, b) <==> SimilarField(rt, kind, a, b)
    decreases a, 1
  {
    match kind
    case Contact =>
    case Address =>
      if a.Str? && b.Str? {
        TruncateKernel(a.s, b.s);
      } else if a.Dict? && b.Dict? {
        Kernel(rt, a, b);
      }
    case Amount => LabelKernel(ToInt(rt, a), ToInt(rt, b));
    case Other => Kernel(rt, a, b);
  }

  lemma {:induction false} ItemKernel(rt: Runtime, a: Value, b: Value)
    ensures RedactItem(rt, a) == RedactItem(rt, b) <==> SimilarItem(rt, a, b)
    decreases a, 1
  {
    if a.Dict? && b.Dict? {
      Kernel(rt, a, b);
    }
  }

  /** What stays of the form: the keys of every dictionary and the length of every list;
      only the value of a contact or an amount key may become a text. */
  predicate SameForm(rt: Runtime, a: Value, b: Value)
    decreases a
  {
    match (a, b)
    case (Dict(xs), Dict(ys)) =>
      |xs| == |ys| && forall i :: 0 <= i < |xs| ==>
        xs[i].key == ys[i].key && (SameForm(rt, xs[i].value, ys[i].value)
                                   || (Kind(rt, xs[i].key) in {Contact, Amount} && ys[i].value.Str?))
    case (List(xs), List(ys)) => |xs| == |ys| && forall i :: 0 <= i < |xs| ==> SameForm(rt, xs[i], ys[i])
    case (Str(_), Str(_)) => true
    case _ => a == b
  }

  lemma {:induction false} SameFormReflexive(rt: Runtime, v: Value)
    ensures SameForm(rt, v, v)
    decreases v
  {
    if v.Dict? {
      forall i | 0 <= i < |v.entries| ensures SameForm(rt, v.entries[i].value, v.entries[i].value) {
        SameFormReflexive(rt, v.entries[i].value);
      }
    } else if v.List? {
      forall i | 0 <= i < |v.items| ensures SameForm(rt, v.items[i], v.items[i]) {
        SameFormReflexive(rt, v.items[i]);
      }
    }
  }

  lemma {:induction false} FormStays(rt: Runtime, v: Value)
    ensures SameForm(rt, v, Redact(rt, v))
    decreases v, 0
  {
    if v.Dict? {
      forall i | 0 <= i < |v.entries| && Kind(rt, v.entries[i].key) in {Address, Other}
        ensures SameForm(rt, v.entries[i].value, RedactField(rt, Kind(rt, v.entries[i].key), v.entries[i].value))
      {
        FieldFormStays(rt, Kind(rt, v.entries[i].key), v.entries[i].value);
      }
    } else if v.List? {
      forall i | 0 <= i < |v.items| ensures SameForm(rt, v.items[i], RedactItem(rt, v.items[i])) {
        FieldFormStays(rt, Address, v.items[i]);
      }
    } else {
      SameFormReflexive(rt, v);
    }
  }

  lemma {:induction false} FieldFormStays(rt: Runtime, kind: KeyKind, v: Value)
    requires kind in {Address, Other}
    ensures SameForm(rt, v, RedactField(rt, kind, v))
    ensures SameForm(rt, v, RedactItem(rt, v))
    decreases v, 1
  {
    SameFormReflexive(rt, v);
    FormStays(rt, v);
  }

  /** A list under an address key, or within another list, is not looked into: whatever
      it holds is logged, contact details included. */
  lemma UnvisitedShows(rt: Runtime, key: string, x: Value, y: Value)
    requires Kind(rt, key) == Address && x != y
    ensures Redact(rt, Dict([Entry(key, List([x]))])) != Redact(rt, Dict([Entry(key, List([y]))]))
    ensures Redact(rt, List([List([x])])) != Redact(rt, List([List([y])]))
  {
    assert [x][0] == x && [y][0] == y;
    var a, b := Dict([Entry(key, List([x]))]), Dict([Entry(key, List([y]))]);
    assert !SimilarField(rt, Address, a.entries[0].value, b.entries[0].value);
    Kernel(rt, a, b);
    var c, d := List([List([x])]), List([List([y])]);
    assert !SimilarItem(rt, c.items[0], d.items[0]);
    Kernel(rt, c, d);
  }

  // ── The rules by name ─────────────────────────────────────────────────────

  predicate ContactKey(k: string) {
    k == "contact_info" || k == "contactinfo" || k == "contact" || k == "email" || k == "phone" || k == "mobile"
  }

  predicate AddressKey(k: string) {
    || k == "payer" || k == "payer_address" || k == "payeraddress" || k == "initiator"
    || k == "merchant" || k == "merchant_address" || k == "merchantaddress"
    || k == "address" || k == "from" || k == "to"
  }

  predicate AmountKey(k: string) {
    || k == "amount" || k == "refund_amount" || k == "refundamount" || k == "total"
    || k == "fee" || k == "platform_fee" || k == "platformfee"
  }

  /** A long text under an address key shows its first eight and its last four characters. */
  predicate Abridged(s: string, t: string) {
    if |s| < 12 then t == s
    else |t| == 13 && t[..8] == s[..8] && t[8] == '\U{2026}' && t[9..] == s[|s| - 4..]
  }

  /** The label of a whole amount. */
  predicate Labelled(n: int, t: string) {
    && (n < 1_000 ==> t == "<1K")
    && (1_000 <= n < 10_000 ==> t == "1K\U{2013}10K")
    && (10_000 <= n < 100_000 ==> t == "10K\U{2013}100K")
    && (100_000 <= n < 1_000_000 ==> t == "100K\U{2013}1M")
    && (1_000_000 <= n < 10_000_000 ==> t == "1M\U{2013}10M")
    && (10_000_000 <= n < 100_000_000 ==> t == "10M\U{2013}100M")
    && (100_000_000 <= n ==> t == "\U{2265}100M")
  }

  /** A fractional amount is cut to the whole amount towards zero. */
  predicate CutTo(r: real, n: int) {
    if r >= 0.0 then n as real <= r < (n + 1) as real else (n - 1) as real < r <= n as real
  }

  ghost predicate AmountShown(rt: Runtime, v: Value, t: string) {
    match v
    case Int(n) => Labelled(n, t)
    case Bool(b) => t == "<1K"
    case Float(Finite(r)) => exists n :: CutTo(r, n) && Labelled(n, t)
    case Float(NaN) => t == "<non-numeric>"
    case Float(Infinite) => true
    case Str(s) => if rt.parse(s).Some? then Labelled(rt.parse(s).value, t) else t == "<non-numeric>"
    case _ => t == "<non-numeric>"
  }

  /** What stands in the log for a value: under a contact key the mask, under an address key
      the two ends, under an amount key the label; any other text is scrubbed, and nothing
      else changes. */
  ghost predicate Shown(rt: Runtime, v: Value, r: Value)
    decreases v, 0
  {
    match v
    case Dict(entries) =>
      r.Dict? && |r.entries| == |entries| && forall i :: 0 <= i < |entries| ==>
        r.entries[i].key == entries[i].key && FieldShown(rt, rt.lower(entries[i].key), entries[i].value, r.entries[i].value)
    case List(items) =>
      r.List? && |r.items| == |items| && forall i :: 0 <= i < |items| ==> ItemShown(rt, items[i], r.items[i])
    case _ => r == v
  }

  ghost predicate FieldShown(rt: Runtime, key: string, v: Value, r: Value)
    decreases v, 1
  {
    if ContactKey(key) then r == Str("[REDACTED]")
    else if AddressKey(key) then
      if v.Str? then r.Str? && Abridged(v.s, r.s) else if v.Dict? then Shown(rt, v, r) else r == v
    else if AmountKey(key) then r.Str? && AmountShown(rt, v, r.s)
    else if v.Str? then r == Str(Scrub(rt, v.s))
    else Shown(rt, v, r)
  }

  ghost predicate ItemShown(rt: Runtime, v: Value, r: Value)
    decreases v, 1
  {
    if v.Str? then r == Str(Scrub(rt, v.s)) else if v.Dict? then Shown(rt, v, r) else r == v
  }

  /** An infinite amount stands where it is converted. */
  predicate HoldsInfinity(rt: Runtime, v: Value)
    decreases v, 0
  {
    match v
    case Dict(entries) =>
      exists i :: 0 <= i < |entries| && FieldHoldsInfinity(rt, rt.lower(entries[i].key), entries[i].value)
    case List(items) => exists i :: 0 <= i < |items| && items[i].Dict? && HoldsInfinity(rt, items[i])
    case _ => false
  }

  predicate FieldHoldsInfinity(rt: Runtime, key: string, v: Value)
    decreases v, 1
  {
    if ContactKey(key) then false
    else if AddressKey(key) then v.Dict? && HoldsInfinity(rt, v)
    else if AmountKey(key) then v == Float(Infinite)
    else HoldsInfinity(rt, v)
  }

  lemma KeysByName(rt: Runtime, key: string)
    ensures ContactKey(rt.lower(key)) <==> Kind(rt, key) == Contact
    ensures AddressKey(rt.lower(key)) <==> Kind(rt, key) == Address
    ensures AmountKey(rt.lower(key)) <==> Kind(rt, key) == Amount
  {
  }

  lemma AmountByName(rt: Runtime, v: Value)
    ensures AmountShown(rt, v, Label(ToInt(rt, v)))
  {
    if v.Float? && v.f.Finite? {
      CutIsTruncated(v.f.r, Truncated(v.f.r));
    }
  }

  lemma CutIsTruncated(r: real, n: int)
    ensures CutTo(r, n) <==> n == Truncated(r)
  {
    var k := if r < 0.0 then (-r).Floor else r.Floor;
    assert if r < 0.0 then k as real <= -r < (k + 1) as real else k as real <= r < (k + 1) as real;
  }

  /** Redaction follows the rules, at every position it visits, and raises exactly where an
      amount is infinite. */
  lemma {:induction false} RedactShows(rt: Runtime, v: Value)
    ensures Shown(rt, v, Redact(rt, v)) && (Completes(rt, v) <==> !HoldsInfinity(rt, v))
    decreases v, 0
  {
    if v.Dict? {
      forall i | 0 <= i < |v.entries|
        ensures FieldShown(rt, rt.lower(v.entries[i].key), v.entries[i].value, RedactField(rt, Kind(rt, v.entries[i].key), v.entries[i].value))
        ensures FieldCompletes(rt, Kind(rt, v.entries[i].key), v.entries[i].value) <==>
                !FieldHoldsInfinity(rt, rt.lower(v.entries[i].key), v.entries[i].value)
      {
        FieldShows(rt, v.entries[i].key, v.entries[i].value);
      }
    } else if v.List? {
      forall i | 0 <= i < |v.items|
        ensures ItemShown(rt, v.items[i], RedactItem(rt, v.items[i]))
        ensures v.items[i].Dict? ==> (Completes(rt, v.items[i]) <==> !HoldsInfinity(rt, v.items[i]))
      {
        RedactShows(rt, v.items[i]);
      }
    }
  }

  lemma {:induction false} FieldShows(rt: Runtime, key: string, v: Value)
    ensures FieldShown(rt, rt.lower(key), v, RedactField(rt, Kind(rt, key), v))
    ensures FieldCompletes(rt, Kind(rt, key), v) <==> !FieldHoldsInfinity(rt, rt.lower(key), v)
    decreases v, 1
  {
    KeysByName(rt, key);
    AmountByName(rt, v);
    RedactShows(rt, v);
  }

  /** What scrubbing does to one word: 55 characters, a G and 54 letters or digits of the
      address alphabet, are cut to the first eight and the last four; every other word stays. */
  lemma WordScrubbed(w: string)
    ensures (|w| == 55 && w[0] == 'G' && forall i :: 1 <= i < 55 ==> w[i] in "ABCDEFGHIJKLMNOPQRSTUVWXYZ234567") ==>
              Mask(w) == w[..8] + "\U{2026}" + w[51..]
    ensures !(|w| == 55 && w[0] == 'G' && forall i :: 1 <= i < 55 ==> w[i] in "ABCDEFGHIJKLMNOPQRSTUVWXYZ234567") ==>
              Mask(w) == w
  {
    forall c: char ensures IsBase32(c) <==> c in "ABCDEFGHIJKLMNOPQRSTUVWXYZ234567" {
      Base32Letters(c);
    }
  }

  /** In ASCII, words are made of letters, digits and the underscore. */
  lemma AsciiWords(rt: Runtime, c: char)
    requires c as int < 128
    ensures IsWord(rt, c) <==> 97 <= c as int <= 122 || 65 <= c as int <= 90 || 48 <= c as int <= 57 || c as int == 95
  {
  }

  lemma Base32Letters(c: char)
    ensures IsBase32(c) <==> c in "ABCDEFGHIJKLMNOPQRSTUVWXYZ234567"
  {
    var letters := "ABCDEFGHIJKLMNOPQRSTUVWXYZ234567";
    assert |letters| == 32;
    assert forall k :: 0 <= k < 26 ==> letters[k] as int == 65 + k;
    assert forall k :: 26 <= k < 32 ==> letters[k] as int == 24 + k;
    if 'A' <= c <= 'Z' {
      assert letters[c as int - 65] == c;
    } else if '2' <= c <= '7' {
      assert letters[c as int - 24] == c;
    }
  }

  // ── The code ──────────────────────────────────────────────────────────────

  /** Dictionaries and lists nest at most `limit` deep. */
  predicate Shallow(v: Value, limit: nat)
    decreases v
  {
    match v
    case Dict(entries) => limit > 0 && forall i :: 0 <= i < |entries| ==> Shallow(entries[i].value, limit - 1)
    case List(items) => limit > 0 && forall i :: 0 <= i < |items| ==> Shallow(items[i], limit - 1)
    case _ => true
  }

  datatype Outcome = Redacted(event: Value) | Raised

  /** The event is copied, which fails on one nested too deep, then rewritten in place, which
      fails on an infinite amount; an event that is no dictionary is returned as it is. */
  method RedactEvent(rt: Runtime, event: Value) returns (r: Outcome)
    ensures r == if !event.Dict? then Redacted(event)
                 else if Shallow(event, rt.maxDepth) && Completes(rt, event) then Redacted(Redact(rt, event))
                 else Raised
    ensures r == Raised <==> event.Dict? && (!Shallow(event, rt.maxDepth) || HoldsInfinity(rt, event))
    ensures r.Redacted? ==> if event.Dict? then Shown(rt, event, r.event) else r.event == event
  {
    RedactShows(rt, event);
    if !event.Dict? {
      return Redacted(event);
    }
    if !Shallow(event, rt.maxDepth) {
      return Raised;
    }
    var copy, raised := RedactDict(rt, event);
    return if raised then Raised else Redacted(copy);
  }

  /** Redaction does raise: on an event with an infinite amount. */
  method InfiniteAmountRaises(rt: Runtime) returns (r: Outcome)
    requires rt.lower("amount") == "amount"
    ensures r == Raised
  {
    var event := Dict([Entry("amount", Float(Infinite))]);
    assert !FieldCompletes(rt, Kind(rt, event.entries[0].key), event.entries[0].value);
    r := RedactEvent(rt, event);
  }

  method RedactDict(rt: Runtime, d: Value) returns (r: Value, raised: bool)
    requires d.Dict?
    ensures raised <==> !Completes(rt, d)
    ensures !raised ==> r == Redact(rt, d)
    decreases d
  {
    var entries := d.entries;
    for i := 0 to |d.entries|
      invariant |entries| == |d.entries|
      invariant forall j :: i <= j < |entries| ==> entries[j] == d.entries[j]
      invariant forall j :: 0 <= j < i ==> FieldCompletes(rt, Kind(rt, d.entries[j].key), d.entries[j].value)
      invariant forall j :: 0 <= j < i ==>
        entries[j] == Entry(d.entries[j].key, RedactField(rt, Kind(rt, d.entries[j].key), d.entries[j].value))
    {
      var key, value := entries[i].key, entries[i].value;
      assert d.entries[i].value < d;
      match Kind(rt, key) {
        case Contact =>
          entries := entries[i := Entry(key, Str("[REDACTED]"))];
        case Address =>
          if value.Str? {
            entries := entries[i := Entry(key, Str(Truncate(value.s)))];
          } else if value.Dict? {
            var inner, failed := RedactDict(rt, value);
            if failed {
              return d, true;
            }
            entries := entries[i := Entry(key, inner)];
          }
        case Amount =>
          if ToInt(rt, value).Overflow? {
            return d, true;
          }
          entries := entries[i := Entry(key, Str(Label(ToInt(rt, value))))];
        case Other =>
          if value.Dict? {
            var inner, failed := RedactDict(rt, value);
            if failed {
              return d, true;
            }
            entries := entries[i := Entry(key, inner)];
          } else if value.List? {
            var inner, failed := RedactList(rt, value);
            if failed {
              return d, true;
            }
            entries := entries[i := Entry(key, inner)];
          } else if value.Str? {
            entries := entries[i := Entry(key, Str(Scrub(rt, value.s)))];
          }
      }
    }
    assert entries == Redact(rt, d).entries;
    return Dict(entries), false;
  }

  method RedactList(rt: Runtime, l: Value) returns (r: Value, raised: bool)
    requires l.List?
    ensures raised <==> !Completes(rt, l)
    ensures !raised ==> r == Redact(rt, l)
    decreases l
  {
    var items := l.items;
    for i := 0 to |l.items|
      invariant |items| == |l.items|
      invariant forall j :: i <= j < |items| ==> items[j] == l.items[j]
      invariant forall j :: 0 <= j < i ==> (l.items[j].Dict? ==> Completes(rt, l.items[j]))
      invariant forall j :: 0 <= j < i ==> items[j] == RedactItem(rt, l.items[j])
    {
      var item := items[i];
      assert l.items[i] < l;
      if item.Dict? {
        var inner, failed := RedactDict(rt, item);
        if failed {
          return l, true;
        }
        items := items[i := inner];
      } else if item.Str? {
        items := items[i := Str(Scrub(rt, item.s))];
      }
    }
    assert items == Redact(rt, l).items;
    return List(items), false;
  }
}
