/** `_parse_opt`: the `-o key=value` strings become a Python dict from key to parsed YAML
    value. A dict keeps its keys in first-insertion order and a repeated key keeps its
    place but takes the later value; `Options` models exactly that. */
module OptionParser {
  import opened Outcomes
  import opened ConfigValues
  import opened Text

  /** An insertion-ordered dict: pairs with pairwise distinct keys. */
  type Options = seq<(string, Value)>

  /** The keys, in iteration order. */
  function Keys(d: Options): seq<string>
    decreases |d|
  {
    if d == [] then [] else [d[0].0] + Keys(d[1..])
  }

  function Lookup(d: Options, k: string): Option<Value>
    decreases |d|
  {
    if d == [] then None
    else if d[0].0 == k then Some(d[0].1)
    else Lookup(d[1..], k)
  }

  predicate NoDuplicates(s: seq<string>)
  {
    forall i, j :: 0 <= i < j < |s| ==> s[i] != s[j]
  }

  /** `d[k] = v` on a dict: the pair of an existing key is replaced where it stands, a new
      key is appended. */
  function Put(d: Options, k: string, v: Value): Options
    decreases |d|
  {
    if d == [] then [(k, v)]
    else if d[0].0 == k then [(k, v)] + d[1..]
    else [d[0]] + Put(d[1..], k, v)
  }

  /** Dict assignment: `k` now maps to `v`, every other key is untouched, and the key
      order is unchanged when `k` was present and extended by `k` when it was not. */
  lemma {:induction false} PutSpec(d: Options, k: string, v: Value, k': string)
    ensures Lookup(Put(d, k, v), k) == Some(v)
    ensures k' != k ==> Lookup(Put(d, k, v), k') == Lookup(d, k')
    ensures Keys(Put(d, k, v)) == if k in Keys(d) then Keys(d) else Keys(d) + [k]
    ensures NoDuplicates(Keys(d)) ==> NoDuplicates(Keys(Put(d, k, v)))
    decreases |d|
  {
    if d != [] && d[0].0 != k {
      PutSpec(d[1..], k, v, k');
      assert Put(d, k, v)[1..] == Put(d[1..], k, v);
    }
  }

  /** One option: stripped, split on every '=', exactly two pieces required (key and
      value text), and the value text parsed by the YAML loader `load`. */
  function ParseOne(s: string, load: string -> Option<Value>): Result<(string, Value)>
  {
    var parts := Split(Strip(s), '=');
    if |parts| != 2 then Err(MalformedOption(s))
    else match load(parts[1])
      case None => Err(UnparsableValue(parts[1]))
      case Some(v) => Ok((parts[0], v))
  }

  /** The dict `_parse_opt` builds with the per-option parser `parse`: options read left
      to right, the first bad option ends the parse. The lemmas below hold for any `parse`;
      the generator uses `o => ParseOne(o, load)`. */
  function ParseAll(opts: seq<string>, parse: string -> Result<(string, Value)>): Result<Options>
    decreases |opts|
  {
    if opts == [] then Ok([])
    else
      var d :- ParseAll(opts[..|opts| - 1], parse);
      var kv :- parse(opts[|opts| - 1]);
      Ok(Put(d, kv.0, kv.1))
  }

  /** `_parse_opt` with YAML loader `load`. */
  function ParseSpec(opts: seq<string>, load: string -> Option<Value>): Result<Options>
  {
    ParseAll(opts, o => ParseOne(o, load))
  }

  /** The loop of `_parse_opt`: no options give the empty dict; otherwise each option is
      parsed in turn and assigned into the dict. */
  method ParseOpt(opts: seq<string>, load: string -> Option<Value>) returns (r: Result<Options>)
    ensures r == ParseSpec(opts, load)
  {
    var config: Options := [];
    if |opts| == 0 {
      return Ok(config);
    }
    ghost var parse := o => ParseOne(o, load);
    for i := 0 to |opts|
      invariant ParseAll(opts[..i], parse) == Ok(config)
    {
      assert opts[..i + 1][..i] == opts[..i];
      var kv := ParseOne(opts[i], load);
      if kv.Err? {
        ParseErrorSticks(opts, parse, i + 1);
        return Err(kv.error);
      }
      config := Put(config, kv.value.0, kv.value.1);
    }
    assert opts[..|opts|] == opts;
    return Ok(config);
  }

  /** Once a prefix of the options fails, the whole parse fails with the same error. */
  lemma {:induction false} ParseErrorSticks(opts: seq<string>, parse: string -> Result<(string, Value)>, i: nat)
    requires i <= |opts| && ParseAll(opts[..i], parse).Err?
    ensures ParseAll(opts, parse) == ParseAll(opts[..i], parse)
    decreases |opts| - i
  {
    if i < |opts| {
      assert opts[..i + 1][..i] == opts[..i];
      ParseErrorSticks(opts, parse, i + 1);
    } else {
      assert opts[..i] == opts;
    }
  }

  /** The parse succeeds exactly when every option on its own parses. */
  lemma {:induction false} ParseOkIff(opts: seq<string>, parse: string -> Result<(string, Value)>)
    ensures ParseAll(opts, parse).Ok? <==> forall i :: 0 <= i < |opts| ==> parse(opts[i]).Ok?
    decreases |opts|
  {
    if opts != [] {
      var init := opts[..|opts| - 1];
      ParseOkIff(init, parse);
      assert forall i :: 0 <= i < |init| ==> init[i] == opts[i];
    }
  }

  /** A failed parse reports the error of the first bad option. */
  lemma {:induction false} ParseFirstError(opts: seq<string>, parse: string -> Result<(string, Value)>)
    returns (i: nat)
    requires ParseAll(opts, parse).Err?
    ensures i < |opts| && parse(opts[i]) == Err(ParseAll(opts, parse).error)
    ensures forall j :: 0 <= j < i ==> parse(opts[j]).Ok?
    decreases |opts|
  {
    var init := opts[..|opts| - 1];
    assert forall j :: 0 <= j < |init| ==> init[j] == opts[j];
    if ParseAll(init, parse).Err? {
      i := ParseFirstError(init, parse);
    } else {
      i := |opts| - 1;
      ParseOkIff(init, parse);
    }
  }

  /** Last value wins: after a successful parse, the key of option `i` maps to that
      option's value when no later option has the same key. */
  lemma {:induction false} ParseLastWins(opts: seq<string>, parse: string -> Result<(string, Value)>, i: nat)
    requires ParseAll(opts, parse).Ok? && i < |opts| && parse(opts[i]).Ok?
    requires forall j :: i < j < |opts| && parse(opts[j]).Ok? ==>
               parse(opts[j]).value.0 != parse(opts[i]).value.0
    ensures Lookup(ParseAll(opts, parse).value, parse(opts[i]).value.0) == Some(parse(opts[i]).value.1)
    decreases |opts|
  {
    var init := opts[..|opts| - 1];
    var last := parse(opts[|opts| - 1]).value;
    PutSpec(ParseAll(init, parse).value, last.0, last.1, parse(opts[i]).value.0);
    if i < |opts| - 1 {
      assert init[i] == opts[i];
      assert forall j :: i < j < |init| ==> init[j] == opts[j];
      ParseLastWins(init, parse, i);
    }
  }

  /** The keys in the order a dict built by repeated assignment iterates them: each key
      at the place it was first assigned. */
  function FirstOccurrences(s: seq<string>): seq<string>
    decreases |s|
  {
    if s == [] then []
    else
      var p := FirstOccurrences(s[..|s| - 1]);
      if s[|s| - 1] in p then p else p + [s[|s| - 1]]
  }

  /** The option keys, in the order they were given. */
  function KeyList(opts: seq<string>, parse: string -> Result<(string, Value)>): seq<string>
    requires forall i :: 0 <= i < |opts| ==> parse(opts[i]).Ok?
    decreases |opts|
  {
    if opts == [] then []
    else KeyList(opts[..|opts| - 1], parse) + [parse(opts[|opts| - 1]).value.0]
  }

  /** After a successful parse the dict holds each given key once, in first-occurrence
      order, and nothing else. */
  lemma {:induction false} ParseKeys(opts: seq<string>, parse: string -> Result<(string, Value)>)
    requires ParseAll(opts, parse).Ok?
    ensures forall i :: 0 <= i < |opts| ==> parse(opts[i]).Ok?
    ensures Keys(ParseAll(opts, parse).value) == FirstOccurrences(KeyList(opts, parse))
    ensures NoDuplicates(Keys(ParseAll(opts, parse).value))
    decreases |opts|
  {
    ParseOkIff(opts, parse);
    if opts != [] {
      var init := opts[..|opts| - 1];
      ParseOkIff(init, parse);
      ParseKeys(init, parse);
      var last := parse(opts[|opts| - 1]).value;
      PutSpec(ParseAll(init, parse).value, last.0, last.1, last.0);
      var ks := KeyList(opts, parse);
      assert ks[..|ks| - 1] == KeyList(init, parse);
    }
  }

  /** A clean `key=text` option parses to its key and the loaded value text. */
  lemma ParseOneRoundTrip(k: string, text: string, load: string -> Option<Value>)
    requires '=' !in k && '=' !in text
    requires k == [] || !IsSpace(k[0])
    requires text == [] || !IsSpace(text[|text| - 1])
    ensures ParseOne(k + "=" + text, load) ==
      match load(text)
      case None => Err(UnparsableValue(text))
      case Some(v) => Ok((k, v))
  {
    CleanOption(k, text);
  }

  /** A clean `key=text` option strips to itself and splits into its key and its text. */
  lemma CleanOption(k: string, text: string)
    requires '=' !in k && '=' !in text
    requires k == [] || !IsSpace(k[0])
    requires text == [] || !IsSpace(text[|text| - 1])
    ensures Split(Strip(k + "=" + text), '=') == [k, text]
  {
    var s := k + "=" + text;
    assert s[0] == if k == [] then '=' else k[0];
    assert s[|s| - 1] == if text == [] then '=' else text[|text| - 1];
    assert !IsSpace('=');
    StripClean(s);
    SplitJoin([k, text], '=');
    assert Join([k, text], '=') == s;
  }

  /** An option whose stripped text holds no '=' or more than one is rejected as malformed. */
  lemma ParseOneMalformed(s: string, load: string -> Option<Value>)
    requires multiset(Strip(s))['='] != 1
    ensures ParseOne(s, load) == Err(MalformedOption(s))
  {
  }
}
