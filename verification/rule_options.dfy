/** Snort rule options as `SnortRuleGenerator` handles them (ml_runner/rule_generator.py):
    an insertion-ordered dictionary, printed as `k:v; k; ...;` and read back by the
    quote-aware splitter of `_parse_rule_options`. */
module RuleOptions {
  import opened Wrappers
  import opened Strings

  /** A Python dictionary from option name to value, in insertion order. */
  type Options = seq<(string, string)>

  predicate UniqueKeys(opts: Options) {
    forall i, j :: 0 <= i < j < |opts| ==> opts[i].0 != opts[j].0
  }

  /** `opts.get(k)` */
  function Get(opts: Options, k: string): (r: Option<string>)
    ensures r.Some? <==> exists i :: 0 <= i < |opts| && opts[i].0 == k
    decreases |opts|
  {
    if |opts| == 0 then None
    else if opts[0].0 == k then Some(opts[0].1)
    else
      var r := Get(opts[1..], k);
      assert forall i :: 1 <= i < |opts| ==> opts[i] == opts[1..][i - 1];
      r
  }

  /** `k in opts` */
  predicate HasKey(opts: Options, k: string) {
    Get(opts, k).Some?
  }

  /** The keys in order. */
  function KeysOf(opts: Options): seq<string> {
    seq(|opts|, i requires 0 <= i < |opts| => opts[i].0)
  }

  /** `opts[k] = v`: an existing key keeps its position, a new key goes last. */
  function Put(opts: Options, k: string, v: string): (r: Options)
    ensures Get(r, k) == Some(v)
    ensures forall k' :: k' != k ==> Get(r, k') == Get(opts, k')
    decreases |opts|
  {
    if |opts| == 0 then [(k, v)]
    else if opts[0].0 == k then
      var r := [(k, v)] + opts[1..];
      assert r[1..] == opts[1..];
      r
    else
      var r := [opts[0]] + Put(opts[1..], k, v);
      assert r[1..] == Put(opts[1..], k, v);
      r
  }

  /** A new key is appended. */
  lemma {:induction false} PutNew(opts: Options, k: string, v: string)
    requires !HasKey(opts, k)
    ensures Put(opts, k, v) == opts + [(k, v)]
    decreases |opts|
  {
    if |opts| > 0 {
      PutNew(opts[1..], k, v);
      assert opts == [opts[0]] + opts[1..];
    }
  }

  /** An existing key keeps its place: the key order does not change. */
  lemma {:induction false} PutKeepsOrder(opts: Options, k: string, v: string)
    requires HasKey(opts, k)
    ensures KeysOf(Put(opts, k, v)) == KeysOf(opts)
    decreases |opts|
  {
    var r := Put(opts, k, v);
    if opts[0].0 != k {
      PutKeepsOrder(opts[1..], k, v);
      var t := Put(opts[1..], k, v);
      forall i | 0 <= i < |r| ensures KeysOf(r)[i] == KeysOf(opts)[i] {
        if i > 0 {
          assert r[i] == t[i - 1] && opts[i] == opts[1..][i - 1];
          assert KeysOf(t)[i - 1] == KeysOf(opts[1..])[i - 1];
        }
      }
    }
  }

  lemma UniqueTail(opts: Options)
    requires UniqueKeys(opts) && |opts| > 0
    ensures UniqueKeys(opts[1..]) && !HasKey(opts[1..], opts[0].0)
  {
    forall i | 0 <= i < |opts[1..]| ensures opts[1..][i].0 != opts[0].0 {
      assert opts[1..][i] == opts[i + 1];
    }
  }

  lemma UniqueCons(x: (string, string), t: Options)
    requires UniqueKeys(t) && !HasKey(t, x.0)
    ensures UniqueKeys([x] + t)
  {
    var r := [x] + t;
    forall j | 1 <= j < |r| ensures r[0].0 != r[j].0 {
      assert t[j - 1] == r[j];
    }
  }

  /** Keys stay unique. */
  lemma {:induction false} PutUnique(opts: Options, k: string, v: string)
    ensures UniqueKeys(opts) ==> UniqueKeys(Put(opts, k, v))
    decreases |opts|
  {
    if UniqueKeys(opts) && |opts| > 0 && opts[0].0 != k {
      var t := Put(opts[1..], k, v);
      UniqueTail(opts);
      PutUnique(opts[1..], k, v);
      assert Get(t, opts[0].0) == Get(opts[1..], opts[0].0);
      UniqueCons(opts[0], t);
    }
  }

  // ------------------------------------------------------------------ printing

  /** `f'{k}:{v}' if v else k` */
  function OptionPart(kv: (string, string)): string {
    if kv.1 == [] then kv.0 else kv.0 + ":" + kv.1
  }

  function PartsOf(opts: Options): (r: seq<string>)
    ensures |r| == |opts|
    decreases |opts|
  {
    if |opts| == 0 then [] else [OptionPart(opts[0])] + PartsOf(opts[1..])
  }

  /** The text between the parentheses of a rule: the parts joined by `"; "`, closed by `;`. */
  function OptionsBody(opts: Options): string {
    Join(PartsOf(opts), "; ") + ";"
  }

  lemma BodyOne(o: (string, string))
    ensures OptionsBody([o]) == OptionPart(o) + ";"
  {
    assert PartsOf([o]) == [OptionPart(o)] by {
      assert [o][1..] == [];
    }
  }

  lemma BodyCons(opts: Options)
    requires |opts| >= 2
    ensures OptionsBody(opts) == OptionPart(opts[0]) + (";" + (" " + OptionsBody(opts[1..])))
  {
    var ps := PartsOf(opts);
    assert ps[1..] == PartsOf(opts[1..]);
    var j := Join(ps[1..], "; ");
    assert Join(ps, "; ") == ps[0] + "; " + j;
    assert ps[0] + "; " + j + ";" == ps[0] + (";" + (" " + (j + ";")));
  }

  // ------------------------------------------------------------------ parsing

  /** The part collected so far, if it is not blank. */
  function Flush(cur: string): seq<string> {
    if Strip(cur) != [] then [Strip(cur)] else []
  }

  /** The character loop of `_parse_rule_options`: a `"` toggles the in-quotes state and
      is kept; a `;` outside quotes ends the current part; blank parts are dropped and the
      others are stripped. */
  function SplitParts(s: string, inQuotes: bool, cur: string): (r: seq<string>)
    ensures forall i :: 0 <= i < |r| ==> r[i] != [] && Stripped(r[i])
    decreases |s|
  {
    StripIsStripped(cur);
    if |s| == 0 then Flush(cur)
    else if s[0] == '"' then SplitParts(s[1..], !inQuotes, cur + ['"'])
    else if s[0] == ';' && !inQuotes then Flush(cur) + SplitParts(s[1..], inQuotes, [])
    else SplitParts(s[1..], inQuotes, cur + [s[0]])
  }

  /** One part: split at the first `:` into stripped key and value; a part without a `:`
      is a key with the empty value. */
  function ParsePart(part: string): (r: (string, string))
    ensures Free(part, ':') ==> r == (Strip(part), "")
  {
    var i := IndexOf(part, ':');
    if i < |part| then (Strip(part[..i]), Strip(part[i + 1..]))
    else
      assert part[..i] == part;
      (Strip(part), "")
  }

  /** Entering the parsed parts one by one; a repeated key keeps its first position and
      takes its last value. */
  function Enter(acc: Options, parts: seq<string>): (r: Options)
    ensures UniqueKeys(acc) ==> UniqueKeys(r)
    decreases |parts|
  {
    if |parts| == 0 then acc
    else
      var kv := ParsePart(parts[0]);
      PutUnique(acc, kv.0, kv.1);
      Enter(Put(acc, kv.0, kv.1), parts[1..])
  }

  /** `_parse_rule_options` */
  function ParseOptions(s: string): (r: Options)
    ensures UniqueKeys(r)
  {
    Enter([], SplitParts(s, false, []))
  }

  // ------------------------------------------------------------------ round trip

  /** Quote state after reading `s` from state `q`. */
  function QuoteState(s: string, q: bool): bool
    decreases |s|
  {
    if |s| == 0 then q else QuoteState(s[1..], if s[0] == '"' then !q else q)
  }

  /** Every `;` of `s`, read from state `q`, lies inside quotes. */
  predicate SemicolonsQuoted(s: string, q: bool)
    decreases |s|
  {
    |s| == 0 || ((s[0] == ';' ==> q) && SemicolonsQuoted(s[1..], if s[0] == '"' then !q else q))
  }

  /** A value that reads back as one piece: stripped, its quotes balanced and its
      semicolons quoted. */
  predicate SafeValue(v: string) {
    Stripped(v) && SemicolonsQuoted(v, false) && !QuoteState(v, false)
  }

  /** A key that reads back as itself. */
  predicate SafeKey(k: string) {
    k != [] && Stripped(k) && Free(k, ':') && Free(k, ';') && Free(k, '"')
  }

  /** Options that read back unchanged after printing. */
  predicate Printable(opts: Options) {
    UniqueKeys(opts) && forall i :: 0 <= i < |opts| ==> SafeKey(opts[i].0) && SafeValue(opts[i].1)
  }

  lemma {:induction false} ScanSegment(seg: string, rest: string, q: bool, cur: string)
    requires SemicolonsQuoted(seg, q)
    ensures SplitParts(seg + rest, q, cur) == SplitParts(rest, QuoteState(seg, q), cur + seg)
    decreases |seg|
  {
    if |seg| == 0 {
      assert seg + rest == rest;
      assert cur + seg == cur;
    } else {
      var s := seg + rest;
      assert s[0] == seg[0];
      assert s[1..] == seg[1..] + rest;
      var q' := if seg[0] == '"' then !q else q;
      ScanSegment(seg[1..], rest, q', cur + [seg[0]]);
      assert cur + [seg[0]] + seg[1..] == cur + seg;
    }
  }

  lemma {:induction false} QuotedFreeKey(k: string, q: bool)
    requires Free(k, ';') && Free(k, '"')
    ensures SemicolonsQuoted(k, q) && QuoteState(k, q) == q
    decreases |k|
  {
    if |k| > 0 {
      QuotedFreeKey(k[1..], q);
    }
  }

  lemma {:induction false} QuotedConcat(a: string, b: string, q: bool)
    ensures QuoteState(a + b, q) == QuoteState(b, QuoteState(a, q))
    ensures SemicolonsQuoted(a + b, q) <== SemicolonsQuoted(a, q) && SemicolonsQuoted(b, QuoteState(a, q))
    decreases |a|
  {
    if |a| == 0 {
      assert a + b == b;
    } else {
      assert (a + b)[1..] == a[1..] + b;
      QuotedConcat(a[1..], b, if a[0] == '"' then !q else q);
    }
  }

  /** A printed option is one quoted-safe piece, stripped and not blank. */
  lemma PartSafe(o: (string, string))
    requires SafeKey(o.0) && SafeValue(o.1)
    ensures SemicolonsQuoted(OptionPart(o), false) && !QuoteState(OptionPart(o), false)
    ensures OptionPart(o) != [] && Stripped(OptionPart(o))
  {
    QuotedFreeKey(o.0, false);
    if o.1 != [] {
      var kc := o.0 + ":";
      QuotedFreeKey(":", false);
      QuotedConcat(o.0, ":", false);
      QuotedConcat(kc, o.1, false);
      assert OptionPart(o)[0] == o.0[0];
      assert OptionPart(o)[|OptionPart(o)| - 1] == o.1[|o.1| - 1];
    }
  }

  /** A part splits at its first `:`; later colons stay in the value. */
  lemma ParsePartColon(k: string, v: string)
    requires Free(k, ':')
    ensures ParsePart(k + ":" + v) == (Strip(k), Strip(v))
  {
    var p := k + ":" + v;
    IndexOfAfterFree(k, ':', v);
    assert p[..|k|] == k;
    assert p[|k| + 1..] == v;
  }

  /** A `;` outside quotes ends a part; semicolons inside quotes do not,
      and the quotes stay in the part. */
  lemma SplitAtSemicolon(a: string, b: string)
    requires SemicolonsQuoted(a, false) && !QuoteState(a, false)
    ensures SplitParts(a + ";" + b, false, []) == Flush(a) + SplitParts(b, false, [])
  {
    ScanSegment(a, ";" + b, false, []);
    assert a + ";" + b == a + (";" + b);
    assert [] + a == a;
    assert (";" + b)[1..] == b;
  }

  lemma PartReads(o: (string, string))
    requires SafeKey(o.0) && SafeValue(o.1)
    ensures ParsePart(OptionPart(o)) == o
  {
    StripOfStripped(o.0);
    if o.1 != [] {
      var p := o.0 + ":" + o.1;
      IndexOfAfterFree(o.0, ':', o.1);
      assert p[..|o.0|] == o.0;
      assert p[|o.0| + 1..] == o.1;
      StripOfStripped(o.1);
    }
  }

  /** Flushing blank-prefixed text yields the stripped part. */
  lemma FlushPart(w: string, p: string)
    requires AllSpace(w) && p != [] && Stripped(p)
    ensures Flush(w + p) == [p]
  {
    StripExact(w, p, []);
    assert w + p + [] == w + p;
  }

  lemma {:induction false} SplitBody(opts: Options, w: string)
    requires |opts| >= 1 && AllSpace(w)
    requires forall i :: 0 <= i < |opts| ==> SafeKey(opts[i].0) && SafeValue(opts[i].1)
    ensures SplitParts(OptionsBody(opts), false, w) == PartsOf(opts)
    decreases |opts|
  {
    var p := OptionPart(opts[0]);
    PartSafe(opts[0]);
    FlushPart(w, p);
    if |opts| == 1 {
      BodyOne(opts[0]);
      ScanSegment(p, ";", false, w);
      assert ";"[1..] == [];
      assert SplitParts(";", false, w + p) == Flush(w + p) + SplitParts([], false, []);
      assert [opts[0]][1..] == [];
    } else {
      var rest := OptionsBody(opts[1..]);
      BodyCons(opts);
      ScanSegment(p, ";" + (" " + rest), false, w);
      assert (";" + (" " + rest))[1..] == " " + rest;
      assert (" " + rest)[1..] == rest;
      assert SplitParts(" " + rest, false, []) == SplitParts(rest, false, [] + [' ']);
      assert [] + [' '] == " ";
      SplitBody(opts[1..], " ");
    }
  }

  /** The first key after a prefix of a uniquely keyed list is not in the prefix. */
  lemma UniqueNext(acc: Options, opts: Options)
    requires UniqueKeys(acc + opts) && |opts| > 0
    ensures !HasKey(acc, opts[0].0)
  {
    forall i | 0 <= i < |acc| ensures acc[i].0 != opts[0].0 {
      assert (acc + opts)[i] == acc[i] && (acc + opts)[|acc|] == opts[0];
    }
  }

  lemma ShiftFirst(acc: Options, opts: Options)
    requires |opts| > 0
    ensures acc + [opts[0]] + opts[1..] == acc + opts
  {
    assert [opts[0]] + opts[1..] == opts;
  }

  /** Entering a printed option with a new key appends it. */
  lemma EnterStep(acc: Options, o: (string, string), rest: seq<string>)
    requires SafeKey(o.0) && SafeValue(o.1) && !HasKey(acc, o.0)
    ensures Enter(acc, [OptionPart(o)] + rest) == Enter(acc + [o], rest)
  {
    PartReads(o);
    PutNew(acc, o.0, o.1);
    assert ([OptionPart(o)] + rest)[1..] == rest;
  }

  lemma {:induction false} EnterParts(acc: Options, opts: Options)
    requires UniqueKeys(acc + opts)
    requires forall i :: 0 <= i < |opts| ==> SafeKey(opts[i].0) && SafeValue(opts[i].1)
    ensures Enter(acc, PartsOf(opts)) == acc + opts
    decreases |opts|
  {
    if |opts| > 0 {
      var o, tail := opts[0], opts[1..];
      UniqueNext(acc, opts);
      EnterStep(acc, o, PartsOf(tail));
      assert PartsOf(opts) == [OptionPart(o)] + PartsOf(tail);
      ShiftFirst(acc, opts);
      EnterParts(acc + [o], tail);
    }
  }

  /** `_parse_rule_options` reads printed options back unchanged: semicolons inside
      quoted values do not split, quotes are kept, bare keys come back with the empty
      value, and the order of the options is preserved. */
  lemma ParsePrintedOptions(opts: Options)
    requires Printable(opts)
    ensures ParseOptions(OptionsBody(opts)) == opts
  {
    if |opts| == 0 {
      assert OptionsBody(opts) == ";";
      assert SplitParts(";", false, []) == Flush([]) + SplitParts([], false, []);
      assert Strip([]) == [];
    } else {
      SplitBody(opts, []);
      assert [] + opts == opts;
      EnterParts([], opts);
    }
  }
}
