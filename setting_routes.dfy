/** The two single-key routes: `test_parse`, which writes a tentative
    `mecab_path`, runs a test parse and always writes the old value back
    without committing; and `set_key_value`, which writes one key, writes the
    old value back if the write raises, and commits in both cases. */
module SettingRoutes {
  import opened Python
  import opened UserSettings

  /** The JSON body a route returns: `{"result": "success"|"failure", "message": ...}`. */
  datatype Reply = Success(message: string) | Failure(message: string)

  const MecabPathKey := "mecab_path"

  /** The sentence the test parse tokenizes. */
  const ProbeSentence := "私は元気です"

  /** The paragraph-marker token the message leaves out. */
  const ParagraphMarker := "¶"

  /** `[t for t in toks if t != "¶"]`. */
  function WithoutMarkers(toks: seq<string>): (r: seq<string>)
    ensures |r| <= |toks|
    ensures forall t :: t in r <==> t in toks && t != ParagraphMarker
  {
    if toks == [] then []
    else if toks[0] == ParagraphMarker then WithoutMarkers(toks[1..])
    else [toks[0]] + WithoutMarkers(toks[1..])
  }

  /** How many times `t` occurs in `toks`. */
  function Occurrences(toks: seq<string>, t: string): nat
  {
    if toks == [] then 0 else (if toks[0] == t then 1 else 0) + Occurrences(toks[1..], t)
  }

  /** Filtering drops exactly the markers and keeps every other token as
      often as it occurs. */
  lemma {:induction false} WithoutMarkersCounts(toks: seq<string>, t: string)
    ensures Occurrences(WithoutMarkers(toks), t) == (if t == ParagraphMarker then 0 else Occurrences(toks, t))
    ensures |WithoutMarkers(toks)| == |toks| - Occurrences(toks, ParagraphMarker)
  {
    if toks != [] {
      WithoutMarkersCounts(toks[1..], t);
      var rest := WithoutMarkers(toks[1..]);
      if toks[0] != ParagraphMarker {
        assert WithoutMarkers(toks)[1..] == rest;
      }
    }
  }

  /** Filtering a concatenation filters each part and keeps them in order. */
  lemma {:induction false} WithoutMarkersConcat(a: seq<string>, b: seq<string>)
    ensures WithoutMarkers(a + b) == WithoutMarkers(a) + WithoutMarkers(b)
  {
    if a == [] {
      assert a + b == b;
    } else {
      assert (a + b)[0] == a[0] && (a + b)[1..] == a[1..] + b;
      WithoutMarkersConcat(a[1..], b);
    }
  }

  /** A single token is dropped exactly when it is the marker. */
  lemma WithoutMarkersSingle(t: string)
    ensures WithoutMarkers([t]) == if t == ParagraphMarker then [] else [t]
  {
    assert [t][1..] == [];
  }

  /** `', '.join(toks)`. */
  function Join(toks: seq<string>): string
  {
    if toks == [] then ""
    else if |toks| == 1 then toks[0]
    else toks[0] + ", " + Join(toks[1..])
  }

  /** Joining a concatenation joins each part and puts one separator between. */
  lemma {:induction false} JoinConcat(a: seq<string>, b: seq<string>)
    requires a != [] && b != []
    ensures Join(a + b) == Join(a) + ", " + Join(b)
  {
    assert (a + b)[0] == a[0] && (a + b)[1..] == a[1..] + b;
    if |a| > 1 {
      JoinConcat(a[1..], b);
      assert Join(a + b) == a[0] + ", " + (Join(a[1..]) + ", " + Join(b));
    }
  }

  /** The success message: `f"{src} parsed to [{ ', '.join(toks) }]"` over the
      filtered tokens. */
  function ParsedMessage(toks: seq<string>): string
  {
    ProbeSentence + " parsed to [" + Join(WithoutMarkers(toks)) + "]"
  }

  /** `request.args.get("mecab_path", None)` as a setting value. */
  function Requested(arg: Option<string>): Value
  {
    if arg.Some? then Str(arg.value) else NoneValue
  }

  /** The reply `test_parse` gives: the tentative write raised, the probe
      (building the parser and parsing the sentence, given the tentative
      `mecab_path`) raised, or the probe produced tokens. */
  function TestParseReply(arg: Option<string>, write: WriteAttempt, probe: Value -> Result<seq<string>>): (r: Reply)
    ensures r.Success? <==> write.Written? && probe(Requested(arg)).Ok?
    ensures r.Success? ==> r.message == ParsedMessage(probe(Requested(arg)).value)
    ensures write.Raised? ==> r == Failure(Describe(write.error))
    ensures write.Written? && probe(Requested(arg)).Err? ==> r == Failure(Describe(probe(Requested(arg)).error))
  {
    if write.Raised? then Failure(Describe(write.error))
    else
      match probe(Requested(arg))
      case Ok(toks) => Success(ParsedMessage(toks))
      case Err(e) => Failure(Describe(e))
  }

  /** `test_parse`: whatever the write and the probe do, every key reads as
      before afterwards, and nothing is committed. */
  method TestParse(store: Store, arg: Option<string>, write: WriteAttempt, probe: Value -> Result<seq<string>>)
    returns (r: Reply)
    modifies store
    ensures forall k :: store.Get(k) == old(store.Get(k))
    ensures store.committed == old(store.committed) && store.commits == old(store.commits)
    ensures r == TestParseReply(arg, write, probe)
  {
    var oldSetting := store.Get(MecabPathKey);
    var raised := store.TrySet(MecabPathKey, Requested(arg), write);
    if raised.Some? {
      r := Failure(Describe(raised.value));
    } else {
      var outcome := probe(store.Get(MecabPathKey));
      match outcome
      case Ok(toks) =>
        r := Success(ParsedMessage(toks));
      case Err(e) =>
        r := Failure(Describe(e));
    }
    // finally:
    store.Set(MecabPathKey, oldSetting);
  }

  /** `set_key_value(key, value)`: the URL segment `value` is written as a
      string; on a raise the old value is written back. Either way the session
      is committed. */
  method SetKeyValue(store: Store, key: string, value: string, write: WriteAttempt) returns (r: Reply)
    modifies store
    ensures write.Written? ==> store.Get(key) == Str(value) && r == Success("OK")
    ensures write.Raised? ==> store.Get(key) == old(store.Get(key)) && r == Failure(Describe(write.error))
    ensures forall k :: k != key ==> store.Get(k) == old(store.Get(k))
    ensures store.committed == store.staged && store.commits == old(store.commits) + 1
  {
    var oldValue := store.Get(key);
    var raised := store.TrySet(key, Str(value), write);
    if raised.None? {
      r := Success("OK");
    } else {
      var message := Describe(raised.value);
      store.Set(key, oldValue);
      r := Failure(message);
    }
    store.Commit();
  }
}
