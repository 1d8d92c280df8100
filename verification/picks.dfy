/** The client-side pick engine (backend/static/app.js,
    refreshKPIs_SimpleMarkets, refreshKPIs_1x2, refreshClientKPIs). Each
    refresh becomes a function from the current inputs to the values the
    three KPI tiles show. */
module Picks {
  import opened Optional
  import opened Thresholds
  import opened Ev
  import opened Odds

  /** The recommendation shown in the pick tile. */
  datatype Pick = Back | Lay | Home | Draw | Away | NoPick

  function Label(p: Pick): string {
    match p
    case Back => "Back"
    case Lay => "Lay"
    case Home => "1"
    case Draw => "X"
    case Away => "2"
    case NoPick => "—"
  }

  /** The pick tile's text identifies the pick. */
  lemma LabelsDistinct(p: Pick, q: Pick)
    requires p != q
    ensures Label(p) != Label(q)
  {
  }

  /** What a refresh leaves in the probability tile. The simple-market path
      does not write it (`Untouched`); the percentage digits of
      `toFixed(2)` are abstracted to the percentage itself. */
  datatype ProbCell = Untouched | ProbNA | ProbDash | ProbPct(pct: real)

  datatype Kpis = Kpis(prob: ProbCell, ev: EvText, tone: Tone, pick: Pick)

  /** The cached home/draw/away probabilities of the 1X2 market. */
  datatype Triple = Triple(home: real, draw: real, away: real)

  /** The two cached probabilities; at most the one for the current market
      family is set after a response. */
  datatype Cache = Cache(prob: Option<real>, probs: Option<Triple>)

  const EmptyCache: Cache := Cache(None, None)

  datatype Candidate = Candidate(outcome: Pick, prob: real)

  // ---------------------------------------------------------------------
  // Simple markets
  // ---------------------------------------------------------------------

  /** The simple-market rule: with a valid odd the pick follows the sign
      of the EV (zero backs); without one it compares the probability with
      the league threshold; with no probability there is no pick. The
      probability tile is not written. */
  predicate FollowsSimpleRule(k: Kpis, oddsText: string, parse: string -> Option<real>,
                              market: Market, league: string, lastProb: Option<real>)
  {
    && k.prob == Untouched
    && (k.pick == NoPick <==> lastProb.None?)
    && (k.pick == Back || k.pick == Lay || k.pick == NoPick)
    && (lastProb.None? ==> k.ev == NotAvailable && k.tone == Neutral)
    && (lastProb.Some? && ReadSingleOdds(oddsText, parse).Some? ==>
          var ev := lastProb.value * ReadSingleOdds(oddsText, parse).value - 1.0;
          && (k.pick == Back <==> ev >= 0.0)
          && k.ev == Percent(if ev > 0.0 then "+" else "", ev * 100.0)
          && k.tone == (if ev >= 0.0 then Positive else Negative))
    && (lastProb.Some? && ReadSingleOdds(oddsText, parse).None? ==>
          && (k.pick == Back <==> lastProb.value >= TableEntry(market, league))
          && k.ev == NotAvailable && k.tone == Neutral)
  }

  /** `refreshKPIs_SimpleMarkets`. */
  function SimpleKpis(oddsText: string, parse: string -> Option<real>, market: Market,
                      league: string, lastProb: Option<real>): (k: Kpis)
    ensures FollowsSimpleRule(k, oddsText, parse, market, league, lastProb)
  {
    var odds := ReadSingleOdds(oddsText, parse);
    var ev := ComputeEV(lastProb, odds);
    var th := GetThreshold(market, league);
    var pick :=
      if ev.Some? then (if ev.value >= 0.0 then Back else Lay)
      else if lastProb.None? then NoPick
      else if lastProb.value >= th then Back else Lay;
    Kpis(Untouched, FormatEV(ev), EvTone(ev), pick)
  }

  /** With a valid odd, backing means the probability reaches the odd's
      implied probability. */
  lemma SimpleBackIsValueBet(oddsText: string, parse: string -> Option<real>, market: Market,
                             league: string, p: real)
    requires ReadSingleOdds(oddsText, parse).Some?
    ensures SimpleKpis(oddsText, parse, market, league, Some(p)).pick == Back
            <==> p >= 1.0 / ReadSingleOdds(oddsText, parse).value
  {
  }

  // ---------------------------------------------------------------------
  // The leftmost maximum: `xs.reduce((a, b) => key(a) >= key(b) ? a : b)`
  // ---------------------------------------------------------------------

  /** `i` holds a largest key and every earlier key is strictly smaller. */
  predicate LeftmostMax(keys: seq<real>, i: int) {
    && 0 <= i < |keys|
    && (forall j :: 0 <= j < |keys| ==> keys[j] <= keys[i])
    && (forall j :: 0 <= j < i ==> keys[j] < keys[i])
  }

  lemma LeftmostMaxUnique(keys: seq<real>, i: int, j: int)
    requires LeftmostMax(keys, i) && LeftmostMax(keys, j)
    ensures i == j
  {
    assert keys[i] <= keys[j] && keys[j] <= keys[i];
  }

  /** The left fold of the reducer above, on indices: the accumulator is
      kept when its key is at least the next one. */
  function ReduceIndex(keys: seq<real>): (i: nat)
    requires |keys| > 0
    ensures LeftmostMax(keys, i)
    decreases |keys|
  {
    if |keys| == 1 then 0
    else
      var init := keys[..|keys| - 1];
      var a := ReduceIndex(init);
      assert forall j :: 0 <= j < |init| ==> init[j] == keys[j];
      if keys[a] >= keys[|keys| - 1] then a else |keys| - 1
  }

  /** The maximum of three keys, written independently of the fold. */
  function Max3(a: real, b: real, c: real): (m: real)
    ensures m == a || m == b || m == c
    ensures a <= m && b <= m && c <= m
  {
    if a >= b && a >= c then a else if b >= c then b else c
  }

  // ---------------------------------------------------------------------
  // 1X2
  // ---------------------------------------------------------------------

  /** The outcome at a position of the triple: 0, 1, 2 for "1", "X", "2". */
  function Position(p: Pick): int {
    match p
    case Home => 0
    case Draw => 1
    case Away => 2
    case _ => -1
  }

  function Candidates(t: Triple): (cs: seq<Candidate>)
    ensures |cs| == 3
    ensures cs[0].outcome == Home && cs[1].outcome == Draw && cs[2].outcome == Away
    ensures cs[0].prob == Clamp01(t.home) && cs[1].prob == Clamp01(t.draw) && cs[2].prob == Clamp01(t.away)
    ensures forall i :: 0 <= i < 3 ==> Position(cs[i].outcome) == i && 0.0 <= cs[i].prob <= 1.0
  {
    [Candidate(Home, Clamp01(t.home)), Candidate(Draw, Clamp01(t.draw)), Candidate(Away, Clamp01(t.away))]
  }

  function Probs(cs: seq<Candidate>): (ps: seq<real>)
    ensures |ps| == |cs|
    ensures forall i :: 0 <= i < |cs| ==> ps[i] == cs[i].prob
  {
    seq(|cs|, i requires 0 <= i < |cs| => cs[i].prob)
  }

  /** The EV of each candidate at the odd in the same position. Both inputs
      are present here, so the reducer's `?? -Infinity` never applies. */
  function Evs(cs: seq<Candidate>, odds: seq<real>): (evs: seq<real>)
    requires |odds| == |cs|
    ensures |evs| == |cs|
    ensures forall i :: 0 <= i < |cs| ==> evs[i] == cs[i].prob * odds[i] - 1.0
  {
    seq(|cs|, i requires 0 <= i < |cs| => ComputeEV(Some(cs[i].prob), Some(odds[i])).value)
  }

  /** The 1X2 market decides only when at least three pieces of the text
      parse to valid odds; further odds are ignored. */
  predicate HasThreeOdds(oddsText: string, parse: string -> Option<real>)
    ensures HasThreeOdds(oddsText, parse) <==>
              !AllWhitespace(oddsText) && |Survivors(Tokens(oddsText), parse)| >= 3
  {
    var o := ReadMultiOdds(oddsText, parse);
    o.Some? && |o.value| == 3
  }

  /** What the tiles show when three valid odds decide: the candidate
      with the largest EV, leftmost on ties, with its probability and EV. */
  predicate ChosenByEv(k: Kpis, cs: seq<Candidate>, odds: seq<real>)
    requires |cs| == 3 && |odds| == 3
  {
    var evs := Evs(cs, odds);
    var i := Position(k.pick);
    && 0 <= i < 3 && k.pick == cs[i].outcome
    && LeftmostMax(evs, i)
    && k.prob == ProbPct(cs[i].prob * 100.0)
    && k.ev == FormatEV(Some(evs[i]))
    && k.tone == EvTone(Some(evs[i]))
  }

  /** What the tiles show when probability decides: the largest
      probability, no EV, and the leftmost most probable candidate only
      when that probability reaches the league's 1X2 threshold. */
  predicate ChosenByProbability(k: Kpis, cs: seq<Candidate>, league: string)
    requires |cs| == 3
  {
    var m := Max3(cs[0].prob, cs[1].prob, cs[2].prob);
    && k.prob == ProbPct(m * 100.0)
    && k.ev == NotAvailable && k.tone == Neutral
    && (k.pick == NoPick <==> m < TableEntry(OneXTwo, league))
    && (k.pick != NoPick ==> 0 <= Position(k.pick) < 3 && k.pick == cs[Position(k.pick)].outcome
                             && LeftmostMax(Probs(cs), Position(k.pick)))
  }

  /** Three valid odds decide by EV. */
  function PickByEv(cs: seq<Candidate>, odds: seq<real>): (k: Kpis)
    requires |cs| == 3 && |odds| == 3
    requires forall i :: 0 <= i < 3 ==> Position(cs[i].outcome) == i
    ensures ChosenByEv(k, cs, odds)
  {
    var evs := Evs(cs, odds);
    var b := ReduceIndex(evs);
    var best := cs[b];
    var ev := Some(evs[b]);
    Kpis(ProbPct(best.prob * 100.0), FormatEV(ev), EvTone(ev), best.outcome)
  }

  /** Fewer than three valid odds: probability decides. */
  function PickByProbability(cs: seq<Candidate>, league: string): (k: Kpis)
    requires |cs| == 3
    requires forall i :: 0 <= i < 3 ==> Position(cs[i].outcome) == i
    ensures ChosenByProbability(k, cs, league)
  {
    var ps := Probs(cs);
    var b := ReduceIndex(ps);
    var best := cs[b];
    assert best.prob == Max3(cs[0].prob, cs[1].prob, cs[2].prob);
    assert Position(best.outcome) == b;
    var th := GetThreshold(OneXTwo, league);
    Kpis(ProbPct(best.prob * 100.0), NotAvailable, Neutral, if best.prob >= th then best.outcome else NoPick)
  }

  /** `refreshKPIs_1x2`, given what the multi-odds reader returned: no
      triple, no pick; three valid odds, the best EV; otherwise the most
      probable outcome against the threshold. */
  function Decide1x2(oddsArr: Option<seq<real>>, league: string, probs: Option<Triple>): (k: Kpis)
    ensures probs.None? ==> k == Kpis(ProbNA, NotAvailable, Neutral, NoPick)
    ensures probs.Some? && oddsArr.Some? && |oddsArr.value| == 3 ==>
              ChosenByEv(k, Candidates(probs.value), oddsArr.value)
    ensures probs.Some? && !(oddsArr.Some? && |oddsArr.value| == 3) ==>
              ChosenByProbability(k, Candidates(probs.value), league)
  {
    if probs.None? then Kpis(ProbNA, NotAvailable, Neutral, NoPick)
    else
      var cs := Candidates(probs.value);
      if oddsArr.Some? && |oddsArr.value| == 3 then PickByEv(cs, oddsArr.value)
      else PickByProbability(cs, league)
  }

  // ---------------------------------------------------------------------
  // The dispatcher
  // ---------------------------------------------------------------------

  /** `refreshClientKPIs`: the 1X2 path reads the cached triple and the
      multi-odds reader; every other market reads the cached single
      probability and the single-odds reader. */
  function RefreshClientKpis(market: Market, league: string, oddsText: string,
                             parse: string -> Option<real>, cache: Cache): (k: Kpis)
    ensures market == OneXTwo ==>
              (k.pick == Home || k.pick == Draw || k.pick == Away || k.pick == NoPick) && k.prob != Untouched
    ensures market != OneXTwo ==>
              (k.pick == Back || k.pick == Lay || k.pick == NoPick) && k.prob == Untouched
    ensures market != OneXTwo ==> (k.pick == NoPick <==> cache.prob.None?)
    ensures market == OneXTwo && cache.probs.None? ==> k == Kpis(ProbNA, NotAvailable, Neutral, NoPick)
    ensures market == OneXTwo && cache.probs.Some? && HasThreeOdds(oddsText, parse) ==>
              ChosenByEv(k, Candidates(cache.probs.value), ReadMultiOdds(oddsText, parse).value)
    ensures market == OneXTwo && cache.probs.Some? && !HasThreeOdds(oddsText, parse) ==>
              ChosenByProbability(k, Candidates(cache.probs.value), league)
    ensures market != OneXTwo ==> FollowsSimpleRule(k, oddsText, parse, market, league, cache.prob)
  {
    if market == OneXTwo then Decide1x2(ReadMultiOdds(oddsText, parse), league, cache.probs)
    else SimpleKpis(oddsText, parse, market, league, cache.prob)
  }

  /** Each market family reads only its own cache: the 1X2 refresh ignores
      the single probability and the simple markets ignore the triple. */
  lemma RefreshReadsOnlyItsCache(market: Market, league: string, oddsText: string,
                                 parse: string -> Option<real>, c1: Cache, c2: Cache)
    requires market == OneXTwo ==> c1.probs == c2.probs
    requires market != OneXTwo ==> c1.prob == c2.prob
    ensures RefreshClientKpis(market, league, oddsText, parse, c1)
            == RefreshClientKpis(market, league, oddsText, parse, c2)
  {
  }

  /** Without three valid odds the odds text plays no part in a 1X2
      refresh. */
  lemma FewOddsAreIgnored(text1: string, text2: string, parse: string -> Option<real>,
                          league: string, cache: Cache)
    requires !HasThreeOdds(text1, parse) && !HasThreeOdds(text2, parse)
    ensures RefreshClientKpis(OneXTwo, league, text1, parse, cache)
            == RefreshClientKpis(OneXTwo, league, text2, parse, cache)
  {
  }

  /** Ties go to the leftmost candidate: on equal EVs "1" beats "X" and "X"
      beats "2". */
  lemma TieGoesLeft(odds: seq<real>, league: string, t: Triple)
    requires |odds| == 3
    ensures var evs := Evs(Candidates(t), odds);
            var pick := Decide1x2(Some(odds), league, Some(t)).pick;
            && (evs[0] == Max3(evs[0], evs[1], evs[2]) ==> pick == Home)
            && (evs[0] < evs[1] && evs[1] == Max3(evs[0], evs[1], evs[2]) ==> pick == Draw)
  {
  }

  /** Three odds [2.50, 3.20, 2.80] against {0.40, 0.28, 0.32}: the home EV
      is exactly 0 and the largest, so "1" is picked, shown without "+" and
      styled positive. */
  lemma ThreeOddsExample(oddsText: string, parse: string -> Option<real>, league: string, prob: Option<real>)
    requires ReadMultiOdds(oddsText, parse) == Some([2.5, 3.2, 2.8])
    ensures RefreshClientKpis(OneXTwo, league, oddsText, parse, Cache(prob, Some(Triple(0.40, 0.28, 0.32))))
            == Kpis(ProbPct(40.0), Percent("", 0.0), Positive, Home)
    ensures Label(RefreshClientKpis(OneXTwo, league, oddsText, parse, Cache(prob, Some(Triple(0.40, 0.28, 0.32)))).pick)
            == "1"
  {
  }

  /** {0.30, 0.35, 0.35} in the Premier League with fewer than three odds:
      "X" wins the tie with "2" but 0.35 is below 0.51, so no pick. */
  lemma BelowThresholdExample(oddsText: string, parse: string -> Option<real>, prob: Option<real>)
    requires !HasThreeOdds(oddsText, parse)
    ensures RefreshClientKpis(OneXTwo, "Premier League", oddsText, parse, Cache(prob, Some(Triple(0.30, 0.35, 0.35))))
            == Kpis(ProbPct(35.0), NotAvailable, Neutral, NoPick)
    ensures Label(RefreshClientKpis(OneXTwo, "Premier League", oddsText, parse,
                                    Cache(prob, Some(Triple(0.30, 0.35, 0.35)))).pick) == "—"
  {
  }
}
