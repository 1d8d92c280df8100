/** The server's verdict for one prediction request (backend/main.py,
    predict): pick the model probability for the market and selection,
    compute an EV when a positive odd was sent, and label the bet. The
    probabilities of the goal model are inputs here. */
module Verdict {
  import opened Optional
  import opened Thresholds
  import opened Ev
  import opened Odds
  import Picks

  datatype Selection = SelHome | SelDraw | SelAway

  /** The probabilities the goal model produces for one fixture. */
  datatype ModelProbs = ModelProbs(home: real, draw: real, away: real, over25: real, btts: real)

  datatype Label = AFavor | EnContra | NoApostar

  /** The label's text in the reply. */
  function Text(l: Label): string {
    match l
    case AFavor => "A favor"
    case EnContra => "En contra"
    case NoApostar => "No apostar"
  }

  /** The three labels have different texts. */
  lemma TextsDistinct(a: Label, b: Label)
    requires a != b
    ensures Text(a) != Text(b)
  {
  }

  /** The probability the verdict is about: the selected 1X2 outcome
      ("home" when none is given), the over-2.5 or both-teams-score
      probability, and for any other market (spread) the home win. */
  function SelectProbability(market: Market, selection: Option<Selection>, mp: ModelProbs): (p: real)
    ensures market == OneXTwo ==>
              (selection.None? ==> p == mp.home)
              && (selection == Some(SelHome) ==> p == mp.home)
              && (selection == Some(SelDraw) ==> p == mp.draw)
              && (selection == Some(SelAway) ==> p == mp.away)
    ensures market == Over25 ==> p == mp.over25
    ensures market == Btts ==> p == mp.btts
    ensures market == Spread ==> p == mp.home
  {
    match market
    case OneXTwo =>
      var sel := if selection.Some? then selection.value else SelHome;
      (match sel
       case SelHome => mp.home
       case SelDraw => mp.draw
       case SelAway => mp.away)
    case Over25 => mp.over25
    case Btts => mp.btts
    case _ => mp.home
  }

  /** Spread is judged on the same probability as a 1X2 request with no
      selection, whatever selection it carries. */
  lemma SpreadIsDefaultHome(selection: Option<Selection>, mp: ModelProbs)
    ensures SelectProbability(Spread, selection, mp) == SelectProbability(OneXTwo, None, mp)
  {
  }

  /** `(p * odds - 1) if (odds and odds > 0) else None`: a missing, zero or
      negative odd gives no EV. */
  function ServerEV(p: real, odds: Option<real>): (ev: Option<real>)
    ensures ev.Some? <==> odds.Some? && odds.value > 0.0
    ensures ev.Some? ==> ev.value + 1.0 == p * odds.value
  {
    if odds.Some? && odds.value > 0.0 then Some(p * odds.value - 1.0) else None
  }

  /** A positive EV or a probability of at least 0.52 is "A favor", even
      when the probability is also at most 0.40; otherwise a probability of
      at most 0.40 is "En contra"; anything else is "No apostar". */
  function Decide(p: real, ev: Option<real>): (l: Label)
    ensures l == AFavor <==> (ev.Some? && ev.value > 0.0) || p >= 0.52
    ensures l == EnContra <==> !(ev.Some? && ev.value > 0.0) && p <= 0.40
    ensures l == NoApostar <==> !(ev.Some? && ev.value > 0.0) && 0.40 < p < 0.52
  {
    if (ev.Some? && ev.value > 0.0) || p >= 0.52 then AFavor
    else if p <= 0.40 then EnContra
    else NoApostar
  }

  datatype Prediction = Prediction(prob: real, ev: Option<real>, pick: Label)

  /** The decision part of `predict`. */
  function Predict(market: Market, selection: Option<Selection>, mp: ModelProbs,
                   odds: Option<real>): (r: Prediction)
    ensures r.prob == SelectProbability(market, selection, mp)
    ensures r.ev.Some? <==> odds.Some? && odds.value > 0.0
    ensures r.ev.Some? ==> r.ev.value + 1.0 == r.prob * odds.value
    ensures r.pick == AFavor <==> r.prob >= 0.52 || (odds.Some? && odds.value > 0.0 && r.prob > 1.0 / odds.value)
    ensures r.pick == EnContra <==>
              r.prob <= 0.40 && !(odds.Some? && odds.value > 0.0 && r.prob > 1.0 / odds.value)
    ensures r.pick == NoApostar <==>
              0.40 < r.prob < 0.52 && !(odds.Some? && odds.value > 0.0 && r.prob > 1.0 / odds.value)
  {
    var p := SelectProbability(market, selection, mp);
    var ev := ServerEV(p, odds);
    assert ev.Some? ==> (ev.value > 0.0 <==> p > 1.0 / odds.value) by {
      if ev.Some? {
        EvSignIsImpliedProbability(p, odds.value);
      }
    }
    Prediction(p, ev, Decide(p, ev))
  }

  /** The verdicts ordered from against to in favour. */
  function Rank(l: Label): int {
    match l
    case EnContra => 0
    case NoApostar => 1
    case AFavor => 2
  }

  /** For a fixed odd, a larger probability never moves the verdict
      towards "En contra". */
  lemma VerdictMonotone(p: real, q: real, odds: Option<real>)
    requires p <= q
    ensures Rank(Decide(p, ServerEV(p, odds))) <= Rank(Decide(q, ServerEV(q, odds)))
  {
  }

  /** The client sends the single-odds reader's value, which is absent or
      above 1.01, so the server's EV is the client's EV for the same
      probability. */
  lemma ServerEvMatchesClient(p: real, oddsText: string, parse: string -> Option<real>)
    ensures ServerEV(p, ReadSingleOdds(oddsText, parse)) == ComputeEV(Some(p), ReadSingleOdds(oddsText, parse))
  {
    var o := ReadSingleOdds(oddsText, parse);
    if o.Some? {
      var server, client := ServerEV(p, o), ComputeEV(Some(p), o);
      assert o.value > 0.0;
      assert server.value == p * o.value - 1.0 == client.value;
      assert server == Some(server.value) && client == Some(client.value);
    }
  }

  /** At EV exactly 0 the client backs the bet while the server, for a
      probability below 0.52, does not call it "A favor": probability 0.5
      at odd 2 is "Back" in a simple market and "No apostar" on the
      server. */
  lemma ZeroEvDisagreement(text: string, parse: string -> Option<real>, market: Market, league: string)
    requires ReadSingleOdds(text, parse) == Some(2.0)
    ensures ComputeEV(Some(0.5), Some(2.0)) == Some(0.0)
    ensures Picks.SimpleKpis(text, parse, market, league, Some(0.5)).pick == Picks.Back
    ensures Decide(0.5, ServerEV(0.5, Some(2.0))) == NoApostar
    ensures Text(Decide(0.5, ServerEV(0.5, Some(2.0)))) == "No apostar"
  {
  }

  lemma VerdictExamples()
    ensures Decide(0.30, Some(0.5)) == AFavor
    ensures Decide(0.30, None) == EnContra
    ensures Decide(0.52, None) == AFavor
    ensures Decide(0.45, Some(-0.1)) == NoApostar
    ensures Text(Decide(0.30, Some(0.5))) == "A favor" && Text(Decide(0.30, None)) == "En contra"
  {
  }
}
