/**
 One prediction request: build the input row from the two selections, scale
 it, ask the clustering model for a cluster id and look up its description.
 The scaler and the model are opaque artifacts loaded once at start-up; here
 they are a read-only context of two total functions supplied by the caller.
 */
module Pipeline {
  import opened Features
  import opened FeatureVector
  import opened Labels

  /** The loaded artifacts: the scaler's transform and the model's predict. */
  datatype Models = Models(transform: seq<real> -> seq<real>, predict: seq<real> -> int)

  /** What the form submits: two feature names and one value for each. */
  datatype Request = Request(first: string, firstValue: real, second: string, secondValue: real)

  /** A request naming two different features of the feature set. */
  predicate WellFormed(req: Request) {
    req.first in AllFeatures && req.second in AllFeatures && req.first != req.second
  }

  /**
   The requests the form can produce are exactly the well-formed ones: the
   first name from the feature set, the second from the candidates left once
   the first is chosen.
   */
  lemma FormRequestsAreWellFormed(req: Request)
    ensures WellFormed(req) <==> req.first in AllFeatures && req.second in SecondChoices(req.first)
  {
  }

  /** The same two selections, entered in the other order. */
  function Swapped(req: Request): Request {
    Request(req.second, req.secondValue, req.first, req.firstValue)
  }

  /** The row a request produces, by the column-wise description. */
  function RequestRow(req: Request): (r: seq<real>)
    requires WellFormed(req)
    ensures |r| == FeatureCount
    ensures r[ColumnIndex(req.first)] == req.firstValue
    ensures r[ColumnIndex(req.second)] == req.secondValue
    ensures forall k ::
      0 <= k < FeatureCount && k != ColumnIndex(req.first) && k != ColumnIndex(req.second) ==>
      r[k] == FillValue
  {
    ExpectedRowSlots(req.first, req.firstValue, req.second, req.secondValue);
    ExpectedRow(req.first, req.firstValue, req.second, req.secondValue)
  }

  /** Scale, then predict: the id the model assigns to a raw row. */
  function ClusterOf(models: Models, row: seq<real>): int {
    models.predict(models.transform(row))
  }

  /** Handle one submitted form: the cluster id and the description shown for it. */
  method Submit(models: Models, req: Request) returns (cluster: int, desc: string)
    requires WellFormed(req)
    ensures cluster == ClusterOf(models, RequestRow(req))
    ensures desc == Describe(cluster)
    ensures desc == UnknownType <==> !(0 <= cluster <= 3)
  {
    var input := BuildInputRow(req.first, req.firstValue, req.second, req.secondValue);
    cluster := models.predict(models.transform(input[..]));
    desc := Describe(cluster);
  }

  /**
   Entering the two selections in the other order is also a request the form
   accepts, and it yields the same row and therefore the same cluster.
   */
  lemma SubmitOrderIndependent(models: Models, req: Request)
    requires WellFormed(req)
    ensures WellFormed(Swapped(req))
    ensures RequestRow(Swapped(req)) == RequestRow(req)
    ensures ClusterOf(models, RequestRow(Swapped(req))) == ClusterOf(models, RequestRow(req))
  {
    ExpectedRowOrderIndependent(req.first, req.firstValue, req.second, req.secondValue);
  }
}
