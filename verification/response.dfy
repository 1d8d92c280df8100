/** Normalising the prediction reply into the two probability caches, and
    the refresh that follows (backend/static/app.js, the submit handler). */
module Response {
  import opened Optional
  import opened Thresholds
  import opened Ev
  import opened Picks

  /** A decoded JSON value. */
  datatype Json =
    | JNull
    | JBool(b: bool)
    | JNum(n: real)
    | JStr(s: string)
    | JArr(items: seq<Json>)
    | JObj(fields: map<string, Json>)

  /** Property access `v.key`; `None` is `undefined`. Arrays and primitives
      have none of the keys read here. */
  function Get(v: Json, key: string): (r: Option<Json>)
    ensures r.Some? <==> v.JObj? && key in v.fields
    ensures r.Some? ==> r.value == v.fields[key]
  {
    if v.JObj? && key in v.fields then Some(v.fields[key]) else None
  }

  /** `typeof v === "number"`. */
  function AsNumber(v: Option<Json>): (r: Option<real>)
    ensures r.Some? <==> v.Some? && v.value.JNum?
    ensures r.Some? ==> v == Some(JNum(r.value))
  {
    if v.Some? && v.value.JNum? then Some(v.value.n) else None
  }

  /** `null` or `undefined`. */
  predicate Nullish(v: Option<Json>) {
    v.None? || v == Some(JNull)
  }

  /** `a ?? b`. */
  function Coalesce(a: Option<Json>, b: Option<Json>): (r: Option<Json>)
    ensures !Nullish(a) ==> r == a
    ensures Nullish(a) ==> r == b
  {
    if Nullish(a) then b else a
  }

  /** `data?.probs && typeof data.probs === "object"`: present, not null and
      an object or an array. */
  predicate HasNestedProbs(data: Json)
    ensures HasNestedProbs(data) <==>
              data.JObj? && "probs" in data.fields &&
              (data.fields["probs"].JObj? || data.fields["probs"].JArr?)
    ensures Get(data, "probs") == Some(JNull) ==> !HasNestedProbs(data)
  {
    var p := Get(data, "probs");
    p.Some? && (p.value.JObj? || p.value.JArr?)
  }

  /** The raw home, draw and away fields a 1X2 reply is read from: the
      `home`, `draw` and `away` of a nested `probs` value, or else the flat
      `p1`, the first of `px`, `pX`, `draw` that is neither null nor
      missing, and `p2`. */
  function RawTriple(data: Json): (r: (Option<Json>, Option<Json>, Option<Json>))
    ensures HasNestedProbs(data) ==>
              data.JObj? && "probs" in data.fields &&
              var p := data.fields["probs"];
              && r.0 == (if p.JObj? && "home" in p.fields then Some(p.fields["home"]) else None)
              && r.1 == (if p.JObj? && "draw" in p.fields then Some(p.fields["draw"]) else None)
              && r.2 == (if p.JObj? && "away" in p.fields then Some(p.fields["away"]) else None)
    ensures !HasNestedProbs(data) ==>
              && r.0 == (if data.JObj? && "p1" in data.fields then Some(data.fields["p1"]) else None)
              && r.2 == (if data.JObj? && "p2" in data.fields then Some(data.fields["p2"]) else None)
              && (!Nullish(Get(data, "px")) ==> r.1 == Get(data, "px"))
              && (Nullish(Get(data, "px")) && !Nullish(Get(data, "pX")) ==> r.1 == Get(data, "pX"))
              && (Nullish(Get(data, "px")) && Nullish(Get(data, "pX")) ==> r.1 == Get(data, "draw"))
  {
    if HasNestedProbs(data) then
      var p := Get(data, "probs").value;
      (Get(p, "home"), Get(p, "draw"), Get(p, "away"))
    else
      (Get(data, "p1"), Coalesce(Get(data, "px"), Coalesce(Get(data, "pX"), Get(data, "draw"))), Get(data, "p2"))
  }

  /** The outcome of handling a reply: the caches it leaves, or a failure
      (reading a property of `null` throws), after which both caches are
      empty and the tiles show "Error". */
  datatype Reply = Stored(cache: Cache) | Failed

  /** Both caches are cleared first; then only the one of the current
      market family is filled, and only from numeric fields, clamped. */
  function Normalise(market: Market, data: Json): (r: Reply)
    ensures r.Failed? <==> data == JNull
    ensures r.Stored? && market == OneXTwo ==> r.cache.prob.None?
    ensures r.Stored? && market != OneXTwo ==> r.cache.probs.None?
    ensures r.Stored? && market != OneXTwo ==>
              (r.cache.prob.Some? <==> AsNumber(Get(data, "prob")).Some?)
              && (r.cache.prob.Some? ==> r.cache.prob.value == Clamp01(AsNumber(Get(data, "prob")).value))
    ensures r.Stored? && market == OneXTwo ==>
              var (h, d, a) := RawTriple(data);
              && (r.cache.probs.Some? <==> AsNumber(h).Some? && AsNumber(d).Some? && AsNumber(a).Some?)
              && (r.cache.probs.Some? ==>
                    r.cache.probs.value == Triple(Clamp01(AsNumber(h).value), Clamp01(AsNumber(d).value),
                                                  Clamp01(AsNumber(a).value)))
    ensures r.Stored? ==> InUnitRange(r.cache)
  {
    if data == JNull then Failed
    else if market == OneXTwo then
      var (h, d, a) := RawTriple(data);
      var hn, dn, an := AsNumber(h), AsNumber(d), AsNumber(a);
      if hn.Some? && dn.Some? && an.Some? then
        Stored(Cache(None, Some(Triple(Clamp01(hn.value), Clamp01(dn.value), Clamp01(an.value)))))
      else Stored(EmptyCache)
    else
      var pn := AsNumber(Get(data, "prob"));
      if pn.Some? then Stored(Cache(Some(Clamp01(pn.value)), None)) else Stored(EmptyCache)
  }

  /** Every cached probability lies in [0, 1]. */
  predicate InUnitRange(c: Cache) {
    && (c.prob.Some? ==> 0.0 <= c.prob.value <= 1.0)
    && (c.probs.Some? ==> var t := c.probs.value;
          0.0 <= t.home <= 1.0 && 0.0 <= t.draw <= 1.0 && 0.0 <= t.away <= 1.0)
  }

  /** The flat draw field is the first of `px`, `pX`, `draw` that is
      neither missing nor null; a non-numeric `px` therefore hides a
      numeric `pX`. */
  lemma DrawFieldPriority(data: Json)
    requires !HasNestedProbs(data)
    ensures var d := RawTriple(data).1;
            var px, pX := Get(data, "px"), Get(data, "pX");
            && (!Nullish(px) ==> d == px)
            && (Nullish(px) && !Nullish(pX) ==> d == pX)
            && (Nullish(px) && Nullish(pX) ==> d == Get(data, "draw"))
  {
  }

  /** A string `px` blocks a numeric `pX`: no triple is stored. */
  lemma NonNumericPxBlocksTriple(fields: map<string, Json>)
    requires "probs" !in fields
    requires "p1" in fields && fields["p1"].JNum? && "p2" in fields && fields["p2"].JNum?
    requires "px" in fields && fields["px"].JStr?
    requires "pX" in fields && fields["pX"].JNum?
    ensures Normalise(OneXTwo, JObj(fields)) == Stored(EmptyCache)
  {
  }

  /** A nested `probs` object wins over the flat fields. */
  lemma NestedWins(fields: map<string, Json>, h: real, d: real, a: real)
    requires "probs" in fields
    requires fields["probs"] == JObj(map["home" := JNum(h), "draw" := JNum(d), "away" := JNum(a)])
    ensures Normalise(OneXTwo, JObj(fields)) == Stored(Cache(None, Some(Triple(Clamp01(h), Clamp01(d), Clamp01(a)))))
  {
  }

  /** Clamping again in the 1X2 path changes nothing for a cached triple. */
  lemma CandidatesOfNormalisedTriple(market: Market, data: Json)
    requires Normalise(market, data).Stored? && Normalise(market, data).cache.probs.Some?
    ensures var t := Normalise(market, data).cache.probs.value;
            Probs(Candidates(t)) == [t.home, t.draw, t.away]
  {
  }

  /** What the three tiles show once a reply has been handled. */
  datatype Screen = Showing(kpis: Kpis) | ShowingError

  /** The submit handler after the request: normalise the reply (`None` when
      the request or the JSON decoding failed), write the probability tile,
      then refresh the EV and pick tiles on the client. */
  function OnReply(market: Market, league: string, oddsText: string,
                   parse: string -> Option<real>, reply: Option<Json>): (res: (Cache, Screen))
    ensures res.1.ShowingError? <==> reply.None? || reply == Some(JNull)
    ensures res.1.ShowingError? ==> res.0 == EmptyCache
    ensures res.1.Showing? ==> InUnitRange(res.0)
    ensures res.1.Showing? ==> res.1.kpis.prob != Untouched
    ensures res.1.Showing? && market != OneXTwo ==>
              res.1.kpis.prob == (if res.0.prob.Some? then ProbPct(res.0.prob.value * 100.0) else ProbNA)
    ensures reply.Some? && reply.value != JNull ==> Normalise(market, reply.value) == Stored(res.0)
    ensures res.1.Showing? ==>
              var k := RefreshClientKpis(market, league, oddsText, parse, res.0);
              res.1.kpis.pick == k.pick && res.1.kpis.ev == k.ev && res.1.kpis.tone == k.tone
    ensures res.1.Showing? && market == OneXTwo ==>
              res.1.kpis == RefreshClientKpis(market, league, oddsText, parse, res.0)
  {
    if reply.None? then (EmptyCache, ShowingError)
    else
      match Normalise(market, reply.value)
      case Failed => (EmptyCache, ShowingError)
      case Stored(cache) =>
        var shown := if market == OneXTwo then ProbDash
                     else if cache.prob.Some? then ProbPct(cache.prob.value * 100.0) else ProbNA;
        var k := RefreshClientKpis(market, league, oddsText, parse, cache);
        (cache, Showing(if k.prob == Untouched then k.(prob := shown) else k))
  }

  /** The server's reply carries only `prob`, `ev` and `pick`
      (backend/main.py, PredictResponse), with no `probs`, `p1`, `px` or
      `p2`: a simple market caches the clamped `prob`, but a 1X2 request
      never fills the triple, and its tiles end on "N/A", "N/A" and "—". */
  lemma ServerReplyNeverFillsTriple(p: real, ev: Json, pick: string, market: Market, league: string,
                                    oddsText: string, parse: string -> Option<real>)
    ensures var data := JObj(map["prob" := JNum(p), "ev" := ev, "pick" := JStr(pick)]);
            market != OneXTwo ==> Normalise(market, data) == Stored(Cache(Some(Clamp01(p)), None))
    ensures var data := JObj(map["prob" := JNum(p), "ev" := ev, "pick" := JStr(pick)]);
            && Normalise(OneXTwo, data) == Stored(EmptyCache)
            && OnReply(OneXTwo, league, oddsText, parse, Some(data))
               == (EmptyCache, Showing(Kpis(ProbNA, NotAvailable, Neutral, NoPick)))
  {
  }
}
