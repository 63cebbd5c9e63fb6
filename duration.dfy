/** `parseISODuration` (server.js): reads the time part `PT[nH][nM][nS]` of an
    ISO 8601 duration in the format with designators (section 4.4.3.2 of
    ISO 8601:2004), the way YouTube reports a video's `contentDetails.duration`.

    The source applies the unanchored regular expression
    `PT(?:(\d+)H)?(?:(\d+)M)?(?:(\d+)S)?` and adds up the captures, reading a
    missing capture as 0. Because every group is optional, the match starts at
    the FIRST occurrence of "PT"; each group then takes part exactly when the
    longest digit run at the current position is followed by its designator.
    A string without "PT" makes `match` return `null`, and reading `m[1]`
    then throws: that outcome is `None` here. */
module Duration {
  import opened Common

  /** Index of the first "PT" at or after `from`. */
  function FindPT(d: string, from: nat): (r: Option<nat>)
    requires from <= |d|
    ensures r.Some? ==> from <= r.value && OccursAt(d, "PT", r.value)
    ensures r.Some? ==> forall j :: from <= j < r.value ==> !OccursAt(d, "PT", j)
    ensures r.None? ==> forall j :: from <= j ==> !OccursAt(d, "PT", j)
    decreases |d| - from
  {
    if from + 2 > |d| then None
    else
      assert d[from..from + 2] == [d[from], d[from + 1]];
      if d[from] == 'P' && d[from + 1] == 'T' then Some(from)
      else FindPT(d, from + 1)
  }

  /** One optional group `(?:(\d+)X)?` applied at the start of `t`, for the
      designator `X`: the captured value (0 when the group does not take part)
      and the number of characters it consumes. */
  function Group(t: string, designator: char): (r: (nat, nat))
    ensures r.1 <= |t|
    ensures r.1 > 0 ==> r.1 >= 2 && t[r.1 - 1] == designator && AllDigits(t[..r.1 - 1])
    ensures r.1 == 0 ==> r.0 == 0
    ensures r.1 > 0 ==> r.0 == DigitsValue(t[..r.1 - 1])
    ensures !IsDigit(designator) && (exists k :: 1 <= k < |t| && AllDigits(t[..k]) && t[k] == designator)
            ==> r.1 > 0
  {
    var k := DigitRun(t, 0);
    assert t[0..k] == t[..k];
    if k > 0 && k < |t| && t[k] == designator then (DigitsValue(t[..k]), k + 1)
    else (0, 0)
  }

  /** The number of seconds in the duration, or `None` where the source
      throws because the text holds no "PT". */
  function ParseIsoDuration(d: string): (r: Option<nat>)
    ensures r.None? <==> !Contains(d, "PT")
  {
    match FindPT(d, 0)
    case None => None
    case Some(i) => Some(TimeValue(d[i + 2..]))
  }

  /** The three groups applied in turn to the text after "PT", each starting
      where the previous one stopped; the sum `H * 3600 + M * 60 + S`. When
      the text does not start with a digit no group takes part and the sum
      is 0; a value read by the hours group counts 3600 times. */
  function TimeValue(t0: string): (r: nat)
    ensures t0 == [] || !IsDigit(t0[0]) ==> r == 0
    ensures r >= Group(t0, 'H').0 * 3600
  {
    var g1 := Group(t0, 'H');
    var t1 := t0[g1.1..];
    var g2 := Group(t1, 'M');
    var t2 := t1[g2.1..];
    var g3 := Group(t2, 'S');
    assert g1.1 == 0 ==> t1 == t0;
    assert g2.1 == 0 ==> t2 == t1;
    Total(g1.0, g2.0, g3.0)
  }

  /** `H * 3600 + M * 60 + S` */
  function Total(h: nat, m: nat, s: nat): nat {
    h * 3600 + m * 60 + s
  }

  /** The canonical text `PT[nH][nM][nS]` of a time-only duration. */
  function IsoTime(hours: Option<nat>, minutes: Option<nat>, seconds: Option<nat>): string {
    "PT" + Part(hours, 'H') + Part(minutes, 'M') + Part(seconds, 'S')
  }

  function Part(x: Option<nat>, designator: char): string {
    match x
    case None => ""
    case Some(n) => NatToString(n) + [designator]
  }

  /** 3600·H + 60·M + S, an absent component counting as zero. */
  function Seconds(hours: Option<nat>, minutes: Option<nat>, seconds: Option<nat>): nat {
    Total(hours.GetOr(0), minutes.GetOr(0), seconds.GetOr(0))
  }

  /** Every canonical time-only duration parses to its number of seconds;
      in particular bare "PT" is 0. */
  lemma ParseIsoTime(hours: Option<nat>, minutes: Option<nat>, seconds: Option<nat>)
    ensures ParseIsoDuration(IsoTime(hours, minutes, seconds)) == Some(Seconds(hours, minutes, seconds))
  {
    var rest := Part(hours, 'H') + (Part(minutes, 'M') + Part(seconds, 'S'));
    assert IsoTime(hours, minutes, seconds) == "PT" + rest;
    ParseAfterPT(rest);
    TimeValueOfParts(hours, minutes, seconds);
  }

  /** A text starting with "PT" is read from just after it. */
  lemma ParseAfterPT(rest: string)
    ensures ParseIsoDuration("PT" + rest) == Some(TimeValue(rest))
  {
    var d := "PT" + rest;
    assert d[0] == 'P' && d[1] == 'T';
    assert FindPT(d, 0) == Some(0);
    assert d[2..] == rest;
  }

  /** The three groups read the parts `[nH][nM][nS]` one after another and
      add up to 3600·H + 60·M + S. */
  lemma TimeValueOfParts(hours: Option<nat>, minutes: Option<nat>, seconds: Option<nat>)
    ensures TimeValue(Part(hours, 'H') + (Part(minutes, 'M') + Part(seconds, 'S')))
         == Seconds(hours, minutes, seconds)
  {
    var ph, pm, ps := Part(hours, 'H'), Part(minutes, 'M'), Part(seconds, 'S');
    var t0 := ph + (pm + ps);
    if hours.None? {
      MissBefore(seconds, 'S', "", 'H');
      assert ps + "" == ps;
      MissBefore(minutes, 'M', ps, 'H');
    }
    GroupPart(hours, 'H', pm + ps);
    var g1 := Group(t0, 'H');
    assert g1 == (hours.GetOr(0), |ph|);
    var t1 := t0[g1.1..];
    assert t1 == pm + ps;
    if minutes.None? { MissBefore(seconds, 'S', "", 'M'); }
    assert pm + ps == pm + (ps + "");
    GroupPart(minutes, 'M', ps + "");
    var g2 := Group(t1, 'M');
    assert g2 == (minutes.GetOr(0), |pm|);
    var t2 := t1[g2.1..];
    assert t2 == ps + "";
    GroupPart(seconds, 'S', "");
    var g3 := Group(t2, 'S');
    assert g3.0 == seconds.GetOr(0);
    assert TimeValue(t0) == Total(g1.0, g2.0, g3.0);
  }

  /** The group for `designator` consumes exactly its own part when that part
      is present; when it is absent it consumes nothing, provided no group of
      the same designator starts the text that follows. */
  lemma GroupPart(x: Option<nat>, designator: char, rest: string)
    requires !IsDigit(designator)
    requires x.None? ==> Group(rest, designator).1 == 0
    ensures Group(Part(x, designator) + rest, designator) == (x.GetOr(0), |Part(x, designator)|)
  {
    match x
    case Some(n) =>
      GroupHit(n, designator, rest);
    case None =>
      assert Part(x, designator) + rest == rest;
  }

  /** A group does not take part in front of a part with another designator. */
  lemma MissBefore(y: Option<nat>, c: char, rest: string, designator: char)
    requires c != designator && !IsDigit(c)
    requires y.None? ==> Group(rest, designator).1 == 0
    ensures Group(Part(y, c) + rest, designator).1 == 0
  {
    match y
    case None =>
      assert Part(y, c) + rest == rest;
    case Some(n) =>
      var ds := NatToString(n);
      var t := ds + [c] + rest;
      assert Part(y, c) + rest == t;
      DigitRunExact(t, 0, |ds|);
  }

  lemma GroupHit(n: nat, designator: char, rest: string)
    requires !IsDigit(designator)
    ensures Group(NatToString(n) + [designator] + rest, designator) == (n, |NatToString(n)| + 1)
  {
    var ds := NatToString(n);
    var t := ds + [designator] + rest;
    DigitRunExact(t, 0, |ds|);
    assert t[..|ds|] == ds;
    NatToStringValue(n);
  }

  /** The greedy digit run from `p` ends at the first non-digit `q`. */
  lemma {:induction false} DigitRunExact(t: string, p: nat, q: nat)
    requires p <= q < |t|
    requires forall j :: p <= j < q ==> IsDigit(t[j])
    requires !IsDigit(t[q])
    ensures DigitRun(t, p) == q - p
    decreases q - p
  {
    if p < q {
      DigitRunExact(t, p + 1, q);
    }
  }
}
