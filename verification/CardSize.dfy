/** The size cut of `BuildCardJSON` in internal/render/state.go, over an arbitrary encoder. */
module CardSize {
  import opened Bytes
  import opened CardState
  import LongBody

  const MAX_CARD_JSON := 25 * 1024
  const KEEP := 20_000

  /** The cut marker: two newlines and an emphasised Chinese note saying that the card was cut
      and continues in thread replies. */
  const MARKER: Bytes :=
    "\n\n*[" +
    "\U{E6}\U{9C}\U{AC}\U{E5}\U{8D}\U{A1}\U{E7}\U{89}\U{87}\U{E8}\U{BF}\U{87}\U{E9}\U{95}\U{BF}\U{EF}\U{BC}\U{8C}" +
    "\U{E5}\U{B7}\U{B2}\U{E6}\U{88}\U{AA}\U{E6}\U{96}\U{AD}\U{EF}\U{BC}\U{9B}" +
    "\U{E5}\U{AE}\U{8C}\U{E6}\U{95}\U{B4}\U{E5}\U{86}\U{85}\U{E5}\U{AE}\U{B9}\U{E9}\U{80}\U{9A}\U{E8}\U{BF}\U{87}" +
    "\U{E7}\U{BA}\U{BF}\U{E7}\U{A8}\U{8B}\U{E5}\U{9B}\U{9E}\U{E5}\U{A4}\U{8D}\U{E7}\U{BB}\U{A7}\U{E7}\U{BB}\U{AD}" +
    "]*"

  /** `trimTextForSize`; None for its nil result. */
  function TrimTextForSize(c: Card): Option<Card> {
    if c.text == "" then None
    else if |c.text| > KEEP then Some(c.(text := c.text[..KEEP] + MARKER))
    else None
  }

  /** The recursion of `BuildCardJSON`, `calls` deep at most: the card that finally gets encoded,
      or None when the recursion is still going on by then. */
  function BuiltFrom(encode: Card -> Bytes, c: Card, calls: nat): Option<Card>
    decreases calls
  {
    if calls == 0 then None
    else if |encode(c)| <= MAX_CARD_JSON then Some(c)
    else
      var cut := TrimTextForSize(c);
      if cut.None? then Some(c) else BuiltFrom(encode, cut.value, calls - 1)
  }

  /** How a call of `BuildCardJSON` goes: it may never come back. */
  datatype Built = Body(body: Bytes) | EncodingFails | NeverEnds

  /** `BuildCardJSON`.  Two calls tell how any number of them ends (RetryEndsExactly). */
  function BuildCardJSON(encode: Card -> Bytes, c: Card): Built {
    match BuiltFrom(encode, c, 2)
    case Some(b) => Body(encode(b))
    case None => NeverEnds
  }

  function BuilderOf(encode: Card -> Bytes): Card -> Built { c => BuildCardJSON(encode, c) }

  /** Cutting a text that has been cut changes nothing. */
  lemma TrimIdempotent(c: Card)
    requires |c.text| > KEEP
    ensures TrimTextForSize(c).Some?
    ensures TrimTextForSize(TrimTextForSize(c).value) == TrimTextForSize(c)
  {
    var cut := TrimTextForSize(c).value;
    assert |MARKER| > 0;
    assert cut.text[..KEEP] == c.text[..KEEP];
  }

  /** Whether the recursion ends at all can be read off the input: it does unless both the card
      and its cut form are too large and there is a text to cut. */
  predicate Ends(encode: Card -> Bytes, c: Card) {
    || |encode(c)| <= MAX_CARD_JSON
    || |c.text| <= KEEP
    || |encode(TrimTextForSize(c).value)| <= MAX_CARD_JSON
  }

  /** "Retry once" holds exactly under that condition; otherwise the same call repeats for ever. */
  lemma RetryEndsExactly(encode: Card -> Bytes, c: Card, calls: nat)
    ensures calls >= 2 ==> (BuiltFrom(encode, c, calls).Some? <==> Ends(encode, c))
    ensures calls >= 2 ==> BuiltFrom(encode, c, calls) == BuiltFrom(encode, c, 2)
    ensures !Ends(encode, c) ==> BuiltFrom(encode, c, calls).None?
  {
    if |c.text| > KEEP {
      TrimIdempotent(c);
      var cut := TrimTextForSize(c).value;
      if |encode(cut)| > MAX_CARD_JSON {
        CutRepeats(encode, cut, calls);
        if calls > 0 { CutRepeats(encode, cut, calls - 1); }
        CutRepeats(encode, cut, 1);
      }
    }
  }

  lemma {:induction false} CutRepeats(encode: Card -> Bytes, cut: Card, calls: nat)
    requires TrimTextForSize(cut) == Some(cut) && |encode(cut)| > MAX_CARD_JSON
    ensures BuiltFrom(encode, cut, calls).None?
  {
    if calls > 0 { CutRepeats(encode, cut, calls - 1); }
  }

  function Quotes(s: Bytes): nat {
    if s == "" then 0 else Quotes(s[..|s| - 1]) + if s[|s| - 1] == '"' then 1 else 0
  }

  /** JSON writes a quote as two bytes and no byte as less than one; an error card leaves the text
      out. */
  ghost predicate Escapes(encode: Card -> Bytes) {
    forall c: Card :: c.phase != PhaseError ==> |encode(c)| >= |c.text| + Quotes(c.text)
  }

  lemma {:induction false} AllQuotes(s: Bytes)
    requires forall k :: 0 <= k < |s| ==> s[k] == '"'
    ensures Quotes(s) == |s|
  {
    if s != "" { AllQuotes(s[..|s| - 1]); }
  }

  lemma {:induction false} QuotesOfPrefix(s: Bytes, n: nat)
    requires n <= |s|
    ensures Quotes(s[..n]) <= Quotes(s)
    decreases |s|
  {
    if n == |s| {
      assert s[..n] == s;
    } else {
      assert s[..|s| - 1][..n] == s[..n];
      QuotesOfPrefix(s[..|s| - 1], n);
    }
  }

  /** And it does happen: an answer of more than 20000 bytes that starts with 20000 quotes is too
      large in both forms, so the recursion never ends, however deep it goes. */
  lemma QuotedTextNeverEnds(encode: Card -> Bytes, c: Card, calls: nat)
    requires Escapes(encode) && c.phase != PhaseError
    requires |c.text| > KEEP && forall k :: 0 <= k < KEEP ==> c.text[k] == '"'
    ensures !Ends(encode, c) && BuiltFrom(encode, c, calls).None?
  {
    var cut := TrimTextForSize(c).value;
    AllQuotes(c.text[..KEEP]);
    QuotesOfPrefix(c.text, KEEP);
    assert cut.text[..KEEP] == c.text[..KEEP];
    QuotesOfPrefix(cut.text, KEEP);
    assert |encode(c)| >= |c.text| + Quotes(c.text);
    assert |encode(cut)| >= |cut.text| + Quotes(cut.text);
    RetryEndsExactly(encode, c, calls);
  }

  /** The card finally encoded fits, or has nothing left to cut. */
  lemma {:induction false} BuiltFits(encode: Card -> Bytes, c: Card, calls: nat)
    ensures BuiltFrom(encode, c, calls).Some? ==>
      var b := BuiltFrom(encode, c, calls).value;
      |encode(b)| <= MAX_CARD_JSON || |b.text| <= KEEP
    decreases calls
  {
    if calls > 0 && TrimTextForSize(c).Some? {
      BuiltFits(encode, TrimTextForSize(c).value, calls - 1);
    }
  }

  /** Card and thread replies together lose nothing: the built card shows the whole text, or its
      first 20000 bytes and the marker, and then the replies are exactly the remainder. */
  lemma CardAndThreadsCoverText(encode: Card -> Bytes, c: Card)
    requires Ends(encode, c)
    ensures BuiltFrom(encode, c, 2).Some?
    ensures var b := BuiltFrom(encode, c, 2).value; var full := c.text;
      && (b == c || b == c.(text := full[..KEEP] + MARKER))
      && (|full| <= LongBody.SOFT ==> b.text == full)
      && (|full| > LongBody.SOFT ==>
            && HasPrefix(b.text, full[..LongBody.SOFT])
            && full[..LongBody.SOFT] + Concat(LongBody.Chunks(full[LongBody.SOFT..])) == full)
  {
    RetryEndsExactly(encode, c, 2);
    if |c.text| > LongBody.SOFT {
      LongBody.SplitIsLosslessAndShort(c.text);
      var cut := TrimTextForSize(c).value;
      assert cut.text[..KEEP] == c.text[..KEEP];
    }
  }

  /** The card that is sent shows the whole text, or its first 20000 bytes and the marker if the
      whole is too large; an error card shows the same as before. */
  lemma BuiltCardShows(encode: Card -> Bytes, c: Card)
    ensures Ends(encode, c) <==> BuiltFrom(encode, c, 2).Some?
    ensures Ends(encode, c) ==>
      var b := BuiltFrom(encode, c, 2).value;
      && (c.phase == PhaseError ==> Layout(b) == Layout(c))
      && AnswerIn(Layout(b)) ==
           (if c.phase == PhaseError then ""
            else if |encode(c)| <= MAX_CARD_JSON || |c.text| <= KEEP then c.text
            else c.text[..KEEP] + MARKER)
  {
    RetryEndsExactly(encode, c, 2);
    if Ends(encode, c) { CardShowsText(BuiltFrom(encode, c, 2).value); }
  }
}
