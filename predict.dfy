/** The AI service's `predict_price` route: an area guard, then either the trained model
    on features derived from the address, or a price-per-ping table keyed on the district. */
module Predict {
  import opened Text

  /** `PredictionRequest`; area in ping, prices in units of ten thousand NT$. */
  datatype PredictionRequest = PredictionRequest(
    area: real, address: string, numRooms: int, numBathrooms: int,
    age: int, locationFactor: real, isNearMrt: int)

  /** A request body that gives only the two required fields. */
  function NewRequest(area: real, address: string): (r: PredictionRequest)
    ensures r.area == area && r.address == address
    ensures r.numRooms == 3 && r.numBathrooms == 2 && r.age == 10
    ensures r.locationFactor == 1.0 && r.isNearMrt == 0
  {
    PredictionRequest(area, address, 3, 2, 10, 1.0, 0)
  }

  /** One row of the model's input frame. */
  datatype Features = Features(
    area: real, numRooms: int, numBathrooms: int, age: int,
    locationFactor: real, isNearMrt: int)

  /** The module-level `MODEL`: absent, or a model whose `predict` yields a price or raises. */
  datatype Model = NotLoaded | Loaded(infer: Features -> Option<real>)

  /** The route's answer: a price, or the 400 for a non-positive area. */
  datatype Prediction = Price(value: real) | BadArea

  const Daan := "大安區"
  const Xinyi := "信義區"
  const Zhongshan := "中山區"
  const Songshan := "松山區"
  const Wenshan := "文山區"
  const Beitou := "北投區"

  predicate InPremiumDistrict(address: string) {
    Contains(address, Daan) || Contains(address, Xinyi)
  }

  /** The simulated price per ping when no model is loaded; the first matching tier wins. */
  function TableBase(address: string): (base: real)
    ensures base == 150.0 <==> InPremiumDistrict(address)
    ensures base == 120.0 <==> !InPremiumDistrict(address) && (Contains(address, Zhongshan) || Contains(address, Songshan))
    ensures base == 70.0 <==> !InPremiumDistrict(address) && !Contains(address, Zhongshan) && !Contains(address, Songshan)
                              && (Contains(address, Wenshan) || Contains(address, Beitou))
    ensures base == 80.0 <==> !InPremiumDistrict(address) && !Contains(address, Zhongshan) && !Contains(address, Songshan)
                              && !Contains(address, Wenshan) && !Contains(address, Beitou)
  {
    if InPremiumDistrict(address) then 150.0
    else if Contains(address, Zhongshan) || Contains(address, Songshan) then 120.0
    else if Contains(address, Wenshan) || Contains(address, Beitou) then 70.0
    else 80.0
  }

  /** The reduced table used when the loaded model fails: two tiers only. */
  function FallbackBase(address: string): (base: real)
    ensures base == 150.0 <==> InPremiumDistrict(address)
    ensures base == 80.0 <==> !InPremiumDistrict(address)
  {
    if InPremiumDistrict(address) then 150.0 else 80.0
  }

  /** The model's features: the request's own `location_factor` and `is_near_mrt` are replaced
      by values derived from the address. */
  function ModelFeatures(req: PredictionRequest): (f: Features)
    ensures f.area == req.area && f.numRooms == req.numRooms
    ensures f.numBathrooms == req.numBathrooms && f.age == req.age
    ensures InPremiumDistrict(req.address) ==> f.locationFactor == 1.5 && f.isNearMrt == 1
    ensures !InPremiumDistrict(req.address) && Contains(req.address, Zhongshan) ==> f.locationFactor == 1.2 && f.isNearMrt == 0
    ensures !InPremiumDistrict(req.address) && !Contains(req.address, Zhongshan) ==> f.locationFactor == 1.0 && f.isNearMrt == 0
  {
    var (factor, nearMrt) :=
      if InPremiumDistrict(req.address) then (1.5, 1)
      else if Contains(req.address, Zhongshan) then (1.2, 0)
      else (1.0, 0);
    Features(req.area, req.numRooms, req.numBathrooms, req.age, factor, nearMrt)
  }

  /** `predict_price(data)`, before rounding to two decimals. */
  function PredictPrice(req: PredictionRequest, model: Model): (p: Prediction)
    ensures p == BadArea <==> req.area <= 0.0
    ensures req.area > 0.0 && model.NotLoaded? ==> p == Price(req.area * TableBase(req.address))
    ensures req.area > 0.0 && model.Loaded? ==>
              p == Price(match model.infer(ModelFeatures(req))
                         case Some(v) => v
                         case None => req.area * FallbackBase(req.address))
  {
    if req.area <= 0.0 then BadArea
    else match model
      case NotLoaded => Price(req.area * TableBase(req.address))
      case Loaded(infer) =>
        match infer(ModelFeatures(req))
        case Some(v) => Price(v)
        case None => Price(req.area * FallbackBase(req.address))
  }

  /** Without a model, every accepted request is priced between 70 and 150 per ping. */
  lemma SimulatedPriceBounds(req: PredictionRequest)
    requires req.area > 0.0
    ensures PredictPrice(req, NotLoaded).Price?
    ensures var v := PredictPrice(req, NotLoaded).value;
            0.0 < 70.0 * req.area <= v <= 150.0 * req.area
  {
  }

  /** The fallback after a model failure prices every district outside the premium pair at 80,
      so a Zhongshan address gets 80 there but 120 when no model is loaded. */
  lemma FallbackFlattensZhongshan(req: PredictionRequest, infer: Features -> Option<real>)
    requires req.area > 0.0 && infer(ModelFeatures(req)) == None
    requires Contains(req.address, Zhongshan) && !InPremiumDistrict(req.address)
    ensures PredictPrice(req, Loaded(infer)) == Price(req.area * 80.0)
    ensures PredictPrice(req, NotLoaded) == Price(req.area * 120.0)
  {
  }

  /** The model never sees the request's own `location_factor` and `is_near_mrt`. */
  lemma ClientFeaturesIgnored(req: PredictionRequest, factor: real, nearMrt: int, model: Model)
    ensures PredictPrice(req.(locationFactor := factor, isNearMrt := nearMrt), model) == PredictPrice(req, model)
  {
    assert ModelFeatures(req.(locationFactor := factor, isNearMrt := nearMrt)) == ModelFeatures(req);
  }

  /** A request that gives only area and address reaches the model with the default rooms,
      bathrooms and age. */
  lemma DefaultFeatures(area: real, address: string)
    ensures var f := ModelFeatures(NewRequest(area, address));
            f.area == area && f.numRooms == 3 && f.numBathrooms == 2 && f.age == 10
  {
  }

  /** Such a request is priced by its district alone, by the table when no model is loaded
      and by the fallback when the model fails on it. */
  lemma DefaultsReachModel(area: real, address: string, infer: Features -> Option<real>)
    requires area > 0.0
    ensures PredictPrice(NewRequest(area, address), NotLoaded) == Price(area * TableBase(address))
    ensures infer(ModelFeatures(NewRequest(area, address))) == None ==>
              PredictPrice(NewRequest(area, address), Loaded(infer)) == Price(area * FallbackBase(address))
  {
    var req := NewRequest(area, address);
    assert req.area == area && req.address == address;
  }

  /** Any address naming Da'an is in the top tier, whatever precedes or follows it. */
  lemma DaanAddressesPremium(pre: string, post: string, req: PredictionRequest)
    ensures TableBase(pre + Daan + post) == 150.0
    ensures var f := ModelFeatures(req.(address := pre + Daan + post));
            f.locationFactor == 1.5 && f.isNearMrt == 1
  {
    assert OccursAt(Daan, Daan, 0);
    ContainsInContext(pre, Daan, post, Daan);
  }
}
