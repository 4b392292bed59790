/** The records the fire-detection and prediction feeds return. */
module FireModels {
  import opened Common

  /** Terrain context of a detection; every field may be missing. */
  datatype Terrain = Terrain(elevation: Option<real>, landCover: Option<string>, slope: Option<real>)

  /**
   * One fire detection. `acqDate` is the acquisition date as an ordered key (the time value of
   * `new Date(acq_date)`); the feed's radiometric fields are not used by the modelled code.
   */
  datatype FireLocation = FireLocation(
    id: string,
    latitude: real,
    longitude: real,
    acqDate: int,
    satellite: string,
    confidence: real,
    elevation: real,
    terrain: Option<Terrain>)

  /** One cell of the prediction model's risk grid. */
  datatype PredictionDetail = PredictionDetail(
    latitude: real, longitude: real, elevation: real, fireProbability: real, riskLevel: string)

  /** The prediction endpoint's answer; recommendations and assessments are opaque text. */
  datatype PredictionResponse = PredictionResponse(
    riskGrid: seq<PredictionDetail>, recommendations: seq<string>, fireRiskAssessment: seq<string>)
}
