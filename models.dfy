/** The response normaliser of the inference client: `classify_topic` and
    `analyze_sentiment` turn whatever the inference service answered (or the
    failure of the request) into a topic label, a normalised sentiment label,
    or a tagged error string, and never raise. */
module Models {
  import opened PyStr
  import opened PyJson

  /** What `post_request` gives back: the decoded JSON body, or the message of
      the exception raised by the transport, by `raise_for_status` or by the decoder. */
  datatype Response = Received(body: Json) | RequestFailed(message: string)

  const TopicTag := "TopicErr: "
  const SentimentTag := "SentErr: "
  const UnexpectedSentiment := SentimentTag + "Unexpected resp format"
  const LabelPrefix := "LABEL_"

  /** What an `except Exception as e` clause returns: the tag followed by the
      first (at most) 60 characters of `str(e)`. */
  function Caught(tag: string, message: string): (r: string)
    ensures StartsWith(r, tag) && |r| <= |tag| + 60
    ensures StartsWith(message, r[|tag|..])
    ensures |message| <= 60 ==> r == tag + message
    ensures |message| > 60 ==> |r| == |tag| + 60
  {
    assert (tag + Truncate(message, 60))[..|tag|] == tag;
    assert (tag + Truncate(message, 60))[|tag|..] == Truncate(message, 60);
    tag + Truncate(message, 60)
  }

  predicate IsTopicError(r: Json) {
    r.JStr? && StartsWith(r.s, TopicTag)
  }

  predicate IsSentimentError(r: string) {
    StartsWith(r, SentimentTag)
  }

  /** The router wrapping step shared by both classifiers: a list is replaced by
      its first element, or by that element's `"outputs"` when the element
      "contains" `"outputs"` in Python's sense of `in`. Only one level is removed. */
  function UnwrapOnce(data: Json): Result<Json> {
    if data.JArr? then
      var first :- Index0(data);
      var hasOutputs :- Contains(first, "outputs");
      if hasOutputs then GetKey(first, "outputs") else Ok(first)
    else
      Ok(data)
  }

  // ---------------------------------------------------------------- topic

  /** The unwrapped value is an object from which a topic is taken. */
  predicate CarriesTopic(data: Json) {
    var u := UnwrapOnce(data);
    u.Ok? && u.value.JObj? && (HasKey(u.value.entries, "labels") || HasKey(u.value.entries, "label"))
  }

  /** The message of the "unexpected format" answer for an unwrapped value. */
  function UnexpectedTopic(d: Json): string {
    TopicTag + "Unexpected format (" + (if d.JObj? then KeyListRepr(Keys(d.entries)) else ClassRepr(d)) + ")"
  }

  /** Lines 50-58 of `classify_topic`: the topic of an unwrapped value. */
  function ExtractTopic(d: Json): Result<Json> {
    if d.JObj? && HasKey(d.entries, "labels") then
      match GetKey(d, "labels")
      case Ok(labels) => Index0(labels)
      case Raise(m) => Raise(m)
    else if d.JObj? && HasKey(d.entries, "label") then
      GetKey(d, "label")
    else
      Ok(JStr(UnexpectedTopic(d)))
  }

  /** The body of the `try` in `classify_topic`, from the decoded response on. */
  function TopicBody(data: Json): Result<Json> {
    var d :- UnwrapOnce(data);
    ExtractTopic(d)
  }

  /** `classify_topic`: the topic label, or a string tagged `TopicErr: `. */
  function ClassifyTopic(resp: Response): (r: Json)
    ensures resp.RequestFailed? ==> IsTopicError(r) && |r.s| <= |TopicTag| + 60
    ensures resp.Received? && TopicBody(resp.body).Raise? ==> IsTopicError(r) && |r.s| <= |TopicTag| + 60
    ensures !IsTopicError(r) ==> resp.Received? && CarriesTopic(resp.body)
  {
    match resp
    case RequestFailed(m) => JStr(Caught(TopicTag, m))
    case Received(data) =>
      match TopicBody(data)
      case Ok(lbl) => lbl
      case Raise(m) => JStr(Caught(TopicTag, m))
  }

  // ------------------------------------------------------------ sentiment

  /** `label.replace("LABEL_", "").lower()` for a string label. */
  function Normalise(lbl: string): (r: string)
    ensures NoUpperAscii(r)
  {
    LowerAscii(Replace(lbl, LabelPrefix, ""))
  }

  /** `label.replace("LABEL_", "").lower()` for any decoded value. */
  function NormaliseLabel(lbl: Json): (r: Result<string>)
    ensures r.Ok? <==> lbl.JStr?
    ensures lbl.JStr? ==> r.value == Normalise(lbl.s)
  {
    if lbl.JStr? then Ok(Normalise(lbl.s))
    else Raise("'" + TypeName(lbl) + "' object has no attribute 'replace'")
  }

  /** Lines 75-82 of `analyze_sentiment`: the normalised label of an unwrapped value. */
  function ExtractSentiment(d: Json): (r: Result<string>)
    ensures r.Ok? ==> r.value == UnexpectedSentiment || NoUpperAscii(r.value)
  {
    if d.JArr? && d.items != [] then
      var hasLabel :- Contains(d.items[0], "label");
      if hasLabel then
        var lbl :- GetKey(d.items[0], "label");
        NormaliseLabel(lbl)
      else
        Ok(UnexpectedSentiment)
    else if d.JObj? && HasKey(d.entries, "label") then
      match GetKey(d, "label")
      case Ok(lbl) => NormaliseLabel(lbl)
      case Raise(m) => Raise(m)
    else
      Ok(UnexpectedSentiment)
  }

  /** The body of the `try` in `analyze_sentiment`, from the decoded response on. */
  function SentimentBody(data: Json): (r: Result<string>)
    ensures r.Ok? ==> r.value == UnexpectedSentiment || NoUpperAscii(r.value)
  {
    var d :- UnwrapOnce(data);
    ExtractSentiment(d)
  }

  /** `analyze_sentiment`: a normalised label (no ASCII capitals) or a string
      tagged `SentErr: ` (which has one), so the two can never be confused. */
  function AnalyzeSentiment(resp: Response): (r: string)
    ensures IsSentimentError(r) <==> !NoUpperAscii(r)
    ensures resp.RequestFailed? ==> IsSentimentError(r) && |r| <= |SentimentTag| + 60
    ensures resp.Received? && SentimentBody(resp.body).Raise? ==> IsSentimentError(r) && |r| <= |SentimentTag| + 60
  {
    var r := match resp
      case RequestFailed(m) => Caught(SentimentTag, m)
      case Received(data) =>
        (match SentimentBody(data)
         case Ok(lbl) => lbl
         case Raise(m) => Caught(SentimentTag, m));
    TaggedHasCapital(r);
    StartsWithConcat(SentimentTag, "Unexpected resp format");
    r
  }

  /** A tagged sentiment error holds a capital: the `S` of its tag. */
  lemma TaggedHasCapital(r: string)
    ensures IsSentimentError(r) ==> !NoUpperAscii(r)
  {
    if IsSentimentError(r) {
      assert r[0] == SentimentTag[0];
    }
  }

  // ------------------------------------------------------ label normalising

  /** Normalising deletes the leftmost non-overlapping occurrences of `LABEL_`
      (the pieces `split` leaves between them are kept) and then lower-cases. */
  lemma NormaliseIsSplitJoin(lbl: string)
    ensures Normalise(lbl) == LowerAscii(Join(Split(lbl, LabelPrefix), ""))
  {
    ReplaceIsSplitJoin(lbl, LabelPrefix, "");
  }

  /** Normalising an already normalised label changes nothing. */
  lemma NormaliseIdempotent(lbl: string)
    ensures Normalise(Normalise(lbl)) == Normalise(lbl)
  {
    var n := Normalise(lbl);
    assert forall i :: 0 <= i < |n| ==> n[i] != LabelPrefix[0] by {
      assert IsUpperAscii(LabelPrefix[0]);
    }
    ReplaceWithoutFirstChar(n, LabelPrefix, "");
    LowerAsciiIdentity(n);
  }

  /** A leading `LABEL_` is removed and the search resumes after it. */
  lemma ReplaceDropsPrefix(rest: string)
    ensures Replace(LabelPrefix + rest, LabelPrefix, "") == Replace(rest, LabelPrefix, "")
  {
    var s := LabelPrefix + rest;
    assert StartsWith(s, LabelPrefix);
    assert s[|LabelPrefix|..] == rest;
  }

  /** The placeholder prefix is removed and the rest lower-cased. */
  lemma NormalisePrefixed(rest: string)
    requires forall i :: 0 <= i < |rest| ==> rest[i] != LabelPrefix[0]
    ensures Replace(LabelPrefix + rest, LabelPrefix, "") == rest
    ensures Normalise(LabelPrefix + rest) == LowerAscii(rest)
  {
    ReplaceDropsPrefix(rest);
    ReplaceWithoutFirstChar(rest, LabelPrefix, "");
  }

  lemma LowerPositive()
    ensures LowerAscii("POSITIVE") == "positive"
  {
    LowerOf("POSITIVE", "positive");
  }

  lemma LowerNeutral()
    ensures LowerAscii("Neutral") == "neutral"
  {
    LowerOf("Neutral", "neutral");
  }

  lemma LowerPrefix()
    ensures LowerAscii(LabelPrefix) == "label_"
  {
    LowerOf(LabelPrefix, "label_");
  }

  lemma ReplaceNeutral()
    ensures Replace("Neutral", LabelPrefix, "") == "Neutral"
  {
    ReplaceWithoutFirstChar("Neutral", LabelPrefix, "");
  }

  lemma ReplacePositive()
    ensures Replace(LabelPrefix + "POSITIVE", LabelPrefix, "") == "POSITIVE"
  {
    NormalisePrefixed("POSITIVE");
  }

  lemma NormalisePositive()
    ensures Normalise(LabelPrefix + "POSITIVE") == "positive"
  {
    ReplacePositive();
    LowerPositive();
  }

  lemma NormaliseNumbered()
    ensures Normalise(LabelPrefix + "2") == "2"
  {
    NormalisePrefixed("2");
    LowerAsciiIdentity("2");
  }

  /** The labels the sentiment model emits: `LABEL_POSITIVE`, `LABEL_2` and `Neutral`. */
  lemma NormaliseExamples()
    ensures Normalise(LabelPrefix + "POSITIVE") == "positive"
    ensures Normalise(LabelPrefix + "2") == "2"
    ensures Normalise("Neutral") == "neutral"
  {
    NormalisePositive();
    NormaliseNumbered();
    ReplaceNeutral();
    LowerNeutral();
  }

  /** `LAB` followed by something starting with `L` does not start with
      `LABEL_`, and neither do its tails, so `replace` keeps it. */
  lemma ReplaceKeepsLab(x: string)
    requires x != [] && x[0] == LabelPrefix[0]
    ensures Replace("LAB" + x, LabelPrefix, "") == "LAB" + Replace(x, LabelPrefix, "")
  {
    var bx := ['B'] + x;
    var abx := ['A'] + bx;
    var labx := ['L'] + abx;
    DiffersAt(bx, LabelPrefix, 0);
    DiffersAt(abx, LabelPrefix, 0);
    assert labx[3] == x[0];
    DiffersAt(labx, LabelPrefix, 3);
    ReplaceCons3('L', 'A', 'B', x, LabelPrefix, "");
  }

  /** A single left-to-right pass: removing the inner `LABEL_` of
      `LABLABEL_EL_` leaves `LABEL_`, which is not removed again. */
  lemma ReplaceSinglePass()
    ensures Replace("LAB" + LabelPrefix + "EL_", LabelPrefix, "") == LabelPrefix
  {
    ReplaceShorter("EL_", LabelPrefix, "");
    ReplaceDropsPrefix("EL_");
    ReplaceKeepsLab(LabelPrefix + "EL_");
    assert "LAB" + LabelPrefix + "EL_" == "LAB" + (LabelPrefix + "EL_");
    assert "LAB" + "EL_" == LabelPrefix;
  }

  /** Normalising `LABLABEL_EL_` gives `label_`: the prefix formed by the
      removal survives it. */
  lemma NormaliseSinglePass()
    ensures Normalise("LAB" + LabelPrefix + "EL_") == "label_"
  {
    ReplaceSinglePass();
    LowerPrefix();
  }

  // ------------------------------------------------------------ unwrapping

  /** What one unwrapping step does to the documented shapes. */
  lemma UnwrapShapes(x: Json, tail: seq<Json>, outer: seq<(string, Json)>, v: Json)
    ensures !x.JArr? ==> UnwrapOnce(x) == Ok(x)
    ensures x.JObj? && !HasKey(x.entries, "outputs") ==> UnwrapOnce(JArr([x] + tail)) == Ok(x)
    ensures Lookup(outer, "outputs") == Some(v) ==> UnwrapOnce(JArr([JObj(outer)] + tail)) == Ok(v)
    ensures UnwrapOnce(JArr([])) == Raise(ListIndexOutOfRange)
  {
  }

  /** One unwrapping step leaves a nested list a list, unless the nested
      list "contains" `"outputs"`: then subscripting it with a string fails. */
  lemma UnwrapNestedList(inner: seq<Json>, tail: seq<Json>)
    ensures JStr("outputs") !in inner ==> UnwrapOnce(JArr([JArr(inner)] + tail)) == Ok(JArr(inner))
    ensures JStr("outputs") in inner ==> UnwrapOnce(JArr([JArr(inner)] + tail)) == Raise(ListIndicesNotStr)
  {
    if JStr("outputs") in inner {
      var i :| 0 <= i < |inner| && inner[i] == JStr("outputs");
      assert Contains(JArr(inner), "outputs") == Ok(true);
    }
  }

  /** A first element that is a string containing `"outputs"` passes the
      membership test, and subscripting it with a string fails. */
  lemma UnwrapOutputsString(s: string, tail: seq<Json>)
    requires Find(s, "outputs") >= 0
    ensures UnwrapOnce(JArr([JStr(s)] + tail)) == Raise(StrIndicesNotStr)
  {
    assert OccursAt(s, "outputs", Find(s, "outputs"));
  }

  // ------------------------------------------------------- topic shapes

  /** `{"labels": [L, ...]}`, `[{"labels": [L, ...]}]` and
      `[{"outputs": {"labels": [L, ...]}}]` all give L as it is, whatever else
      the objects hold (in particular a `"label"` beside `"labels"`). */
  lemma TopicLabelsShapes(entries: seq<(string, Json)>, top: Json, rest: seq<Json>, tail: seq<Json>, outer: seq<(string, Json)>)
    requires Lookup(entries, "labels") == Some(JArr([top] + rest))
    ensures ClassifyTopic(Received(JObj(entries))) == top
    ensures !HasKey(entries, "outputs") ==> ClassifyTopic(Received(JArr([JObj(entries)] + tail))) == top
    ensures Lookup(outer, "outputs") == Some(JObj(entries)) ==> ClassifyTopic(Received(JArr([JObj(outer)] + tail))) == top
  {
    assert ExtractTopic(JObj(entries)) == Ok(top);
    UnwrapShapes(JObj(entries), tail, outer, JObj(entries));
  }

  /** An object with `"label"` and no `"labels"` gives that label as it is. */
  lemma TopicLabelShapes(entries: seq<(string, Json)>, v: Json, tail: seq<Json>, outer: seq<(string, Json)>)
    requires !HasKey(entries, "labels") && Lookup(entries, "label") == Some(v)
    ensures ClassifyTopic(Received(JObj(entries))) == v
    ensures !HasKey(entries, "outputs") ==> ClassifyTopic(Received(JArr([JObj(entries)] + tail))) == v
    ensures Lookup(outer, "outputs") == Some(JObj(entries)) ==> ClassifyTopic(Received(JArr([JObj(outer)] + tail))) == v
  {
    assert ExtractTopic(JObj(entries)) == Ok(v);
    UnwrapShapes(JObj(entries), tail, outer, JObj(entries));
  }

  /** Once unwrapped, anything but an object with `"labels"` or `"label"` is
      answered with the "unexpected format" error naming its keys or its type. */
  lemma TopicUnexpectedFormat(data: Json)
    requires UnwrapOnce(data).Ok? && !CarriesTopic(data)
    ensures ClassifyTopic(Received(data)) == JStr(UnexpectedTopic(UnwrapOnce(data).value))
    ensures IsTopicError(ClassifyTopic(Received(data)))
  {
  }

  /** An empty top-level list and an empty `"labels"` list are caught index errors. */
  lemma TopicEmptyLists(entries: seq<(string, Json)>)
    ensures ClassifyTopic(Received(JArr([]))) == JStr(TopicTag + ListIndexOutOfRange)
    ensures Lookup(entries, "labels") == Some(JArr([])) ==>
              ClassifyTopic(Received(JObj(entries))) == JStr(TopicTag + ListIndexOutOfRange)
  {
    UnwrapShapes(JObj(entries), [], [], JNull);
    assert TopicBody(JArr([])) == Raise(ListIndexOutOfRange);
  }

  /** Only one level of list is removed: a list of lists is an unexpected
      `<class 'list'>`, or a caught error when the inner list holds `"outputs"`;
      never a label. */
  lemma TopicNestedList(inner: seq<Json>, tail: seq<Json>)
    ensures JStr("outputs") !in inner ==>
              ClassifyTopic(Received(JArr([JArr(inner)] + tail))) == JStr(TopicTag + "Unexpected format (<class 'list'>)")
    ensures JStr("outputs") in inner ==>
              ClassifyTopic(Received(JArr([JArr(inner)] + tail))) == JStr(TopicTag + ListIndicesNotStr)
  {
    UnwrapNestedList(inner, tail);
  }

  /** A first element that is a string containing `"outputs"` ends in a caught
      error, never a label. */
  lemma TopicOutputsString(s: string, tail: seq<Json>)
    requires Find(s, "outputs") >= 0
    ensures ClassifyTopic(Received(JArr([JStr(s)] + tail))) == JStr(TopicTag + StrIndicesNotStr)
  {
    UnwrapOutputsString(s, tail);
  }

  // --------------------------------------------------- sentiment shapes

  /** `{"label": L}`, `[{"label": L}]`, `[[{"label": L}, ...]]`,
      `[{"outputs": {"label": L}}]` and `[{"outputs": [{"label": L}, ...]}]`
      all give the normalised L. */
  lemma SentimentShapes(entries: seq<(string, Json)>, lbl: string, more: seq<Json>, tail: seq<Json>, outer: seq<(string, Json)>)
    requires Lookup(entries, "label") == Some(JStr(lbl))
    ensures AnalyzeSentiment(Received(JObj(entries))) == Normalise(lbl)
    ensures !HasKey(entries, "outputs") ==>
              AnalyzeSentiment(Received(JArr([JObj(entries)] + tail))) == Normalise(lbl)
    ensures JStr("outputs") !in more ==>
              AnalyzeSentiment(Received(JArr([JArr([JObj(entries)] + more)] + tail))) == Normalise(lbl)
    ensures Lookup(outer, "outputs") == Some(JObj(entries)) ==>
              AnalyzeSentiment(Received(JArr([JObj(outer)] + tail))) == Normalise(lbl)
    ensures Lookup(outer, "outputs") == Some(JArr([JObj(entries)] + more)) ==>
              AnalyzeSentiment(Received(JArr([JObj(outer)] + tail))) == Normalise(lbl)
  {
    var obj := JObj(entries);
    var list := JArr([obj] + more);
    assert ExtractSentiment(obj) == Ok(Normalise(lbl));
    assert ExtractSentiment(list) == Ok(Normalise(lbl)) by {
      assert list.items[0] == obj;
    }
    UnwrapShapes(obj, tail, outer, obj);
    UnwrapShapes(obj, tail, outer, list);
    if JStr("outputs") !in more {
      assert JStr("outputs") !in [obj] + more;
      UnwrapNestedList([obj] + more, tail);
    }
  }

  /** A label that is not a string fails in `replace` and is caught. */
  lemma SentimentNonStringLabel(entries: seq<(string, Json)>, v: Json)
    requires Lookup(entries, "label") == Some(v) && !v.JStr?
    ensures AnalyzeSentiment(Received(JObj(entries))) == SentimentTag + ("'" + TypeName(v) + "' object has no attribute 'replace'")
  {
    var m := "'" + TypeName(v) + "' object has no attribute 'replace'";
    assert SentimentBody(JObj(entries)) == Raise(m);
    assert |TypeName(v)| <= 8;
  }

  /** Once unwrapped, a value that is neither a non-empty list nor an object
      with `"label"`, or a non-empty list whose first element does not "contain"
      `"label"` (without raising), is answered with exactly
      `SentErr: Unexpected resp format`. */
  lemma SentimentUnrecognised(data: Json)
    requires UnwrapOnce(data).Ok?
    requires var d := UnwrapOnce(data).value;
             if d.JArr? && d.items != [] then Contains(d.items[0], "label") == Ok(false)
             else !(d.JObj? && HasKey(d.entries, "label"))
    ensures AnalyzeSentiment(Received(data)) == UnexpectedSentiment
  {
  }

  /** Only one level of list is removed: a list of lists of label objects is not a recognised shape. */
  lemma SentimentOneLevelOnly(entries: seq<(string, Json)>, inner: seq<Json>)
    requires JStr("label") !in inner
    ensures AnalyzeSentiment(Received(JArr([JArr([JArr([JObj(entries)] + inner)])]))) == UnexpectedSentiment
  {
    var x := JArr([JObj(entries)] + inner);
    UnwrapNestedList([x], []);
    assert JStr("label") !in [JObj(entries)] + inner;
    assert ExtractSentiment(JArr([x])) == Ok(UnexpectedSentiment);
  }

  /** A first element that is a list holding `"outputs"` ends in a caught
      error, never a label. */
  lemma SentimentOutputsInList(inner: seq<Json>, tail: seq<Json>)
    requires JStr("outputs") in inner
    ensures AnalyzeSentiment(Received(JArr([JArr(inner)] + tail))) == SentimentTag + ListIndicesNotStr
  {
    UnwrapNestedList(inner, tail);
  }

  /** A first element that is a string containing `"outputs"` ends in a caught
      error, never a label. */
  lemma SentimentOutputsInString(s: string, tail: seq<Json>)
    requires Find(s, "outputs") >= 0
    ensures AnalyzeSentiment(Received(JArr([JStr(s)] + tail))) == SentimentTag + StrIndicesNotStr
  {
    UnwrapOutputsString(s, tail);
  }
}
