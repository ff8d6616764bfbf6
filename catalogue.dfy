/**
 * The catalogue of detection models (src/lib/constants.ts) and the lookup
 * by id that the upload page applies to it (`DETECTION_MODELS.find`).
 */
module Catalogue {
  import opened Wrappers

  /** One catalogue record. Its `icon` (a rendering component) is not modelled. */
  datatype DetectionModel = DetectionModel(
    id: string,
    name: string,
    description: string,
    accuracy: int,
    detectionTime: string)

  /** The fixed catalogue, in source order. */
  const DETECTION_MODELS: seq<DetectionModel> := [
    DetectionModel(
      "cnn",
      "Convolutional Neural Network",
      "Deep learning model specialized in image processing with high accuracy for artistic style detection.",
      93,
      "1-2 seconds"),
    DetectionModel(
      "transfer",
      "Transfer Learning",
      "Pre-trained model that's been fine-tuned to detect specific patterns in AI-generated art.",
      91,
      "0.5-1 seconds"),
    DetectionModel(
      "svm",
      "Support Vector Machine",
      "Classic machine learning algorithm that excels at classification tasks with clear decision boundaries.",
      88,
      "0.2-0.5 seconds"),
    DetectionModel(
      "kmeans",
      "K-Means Clustering",
      "Unsupervised learning approach that groups pixels based on similar patterns and features.",
      82,
      "0.1-0.3 seconds")
  ]

  /** No two entries of `models` share an id. */
  predicate IdsDistinct(models: seq<DetectionModel>) {
    forall i, j :: 0 <= i < j < |models| ==> models[i].id != models[j].id
  }

  /** `models[i]` is the first entry of `models` whose id is `id`. */
  predicate IsFirstMatch(models: seq<DetectionModel>, id: string, i: int) {
    0 <= i < |models| && models[i].id == id &&
    forall j :: 0 <= j < i ==> models[j].id != id
  }

  /**
   * JavaScript's `Array.prototype.find` with the predicate `m => m.id === id`:
   * the first entry whose id is `id`, or nothing when there is none.
   */
  function Find(models: seq<DetectionModel>, id: string): (r: Option<DetectionModel>)
    ensures r.None? <==> forall m :: m in models ==> m.id != id
    ensures r.Some? ==> exists i :: IsFirstMatch(models, id, i) && models[i] == r.value
  {
    if models == [] then None
    else if models[0].id == id then
      assert IsFirstMatch(models, id, 0);
      Some(models[0])
    else
      var rest := Find(models[1..], id);
      if rest.Some? then
        var k :| IsFirstMatch(models[1..], id, k) && models[1..][k] == rest.value;
        assert IsFirstMatch(models, id, k + 1);
        rest
      else
        assert forall m :: m in models ==> m == models[0] || m in models[1..];
        rest
  }

  /** A found entry is an entry of the catalogue searched, with the id searched for. */
  lemma FindSound(models: seq<DetectionModel>, id: string)
    ensures Find(models, id).Some? ==> Find(models, id).value in models && Find(models, id).value.id == id
  {
    if Find(models, id).Some? {
      var i :| IsFirstMatch(models, id, i) && models[i] == Find(models, id).value;
    }
  }

  /** When ids are distinct, the lookup returns exactly the entry carrying the id. */
  lemma {:induction false} FindUnique(models: seq<DetectionModel>, id: string, m: DetectionModel)
    requires IdsDistinct(models)
    ensures Find(models, id) == Some(m) <==> m in models && m.id == id
  {
    if models != [] && models[0].id != id {
      assert IdsDistinct(models[1..]) by {
        forall i, j | 0 <= i < j < |models[1..]| ensures models[1..][i].id != models[1..][j].id {
          assert models[1..][i] == models[i + 1] && models[1..][j] == models[j + 1];
        }
      }
      FindUnique(models[1..], id, m);
      assert m in models <==> m == models[0] || m in models[1..];
    } else if models != [] {
      if m in models && m.id == id {
        var k :| 0 <= k < |models| && models[k] == m;
        assert k == 0;
      }
    }
  }

  /** The catalogue has four entries, with ids `cnn`, `transfer`, `svm`, `kmeans` in that order. */
  lemma CatalogueOrder()
    ensures |DETECTION_MODELS| == 4
    ensures DETECTION_MODELS[0].id == "cnn" && DETECTION_MODELS[1].id == "transfer"
    ensures DETECTION_MODELS[2].id == "svm" && DETECTION_MODELS[3].id == "kmeans"
  {
  }

  /** Catalogue ids are pairwise distinct. */
  lemma CatalogueIdsDistinct()
    ensures IdsDistinct(DETECTION_MODELS)
  {
  }

  /** Every catalogue accuracy is a percentage. */
  lemma CatalogueAccuracyIsPercentage()
    ensures forall m :: m in DETECTION_MODELS ==> 0 <= m.accuracy <= 100
  {
  }

  /**
   * Looking an id up in the catalogue finds something exactly when the id is
   * one of the four catalogue ids, and what it finds carries that id.
   */
  lemma CatalogueLookup(id: string)
    ensures Find(DETECTION_MODELS, id).Some? <==> id in ["cnn", "transfer", "svm", "kmeans"]
    ensures Find(DETECTION_MODELS, id).Some? ==>
      Find(DETECTION_MODELS, id).value in DETECTION_MODELS && Find(DETECTION_MODELS, id).value.id == id
  {
    FindSound(DETECTION_MODELS, id);
    if id in ["cnn", "transfer", "svm", "kmeans"] {
      assert exists m :: m in DETECTION_MODELS && m.id == id by {
        if id == "cnn" { assert DETECTION_MODELS[0] in DETECTION_MODELS; }
        else if id == "transfer" { assert DETECTION_MODELS[1] in DETECTION_MODELS; }
        else if id == "svm" { assert DETECTION_MODELS[2] in DETECTION_MODELS; }
        else { assert DETECTION_MODELS[3] in DETECTION_MODELS; }
      }
    }
  }
}
