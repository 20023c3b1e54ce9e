/**
 * `LandmarkViewModel.loadData`: the list screen's published state while the
 * landmarks and categories are fetched together.
 *
 * The two concurrent fetches are an input: a `LoadOutcome` says whether both
 * lists arrived, the task was cancelled, or a fetch failed.
 */
module LandmarkViewModel {
  import opened Wrappers
  import opened Landmarks

  /** How the pair of fetches ended. */
  datatype LoadOutcome =
    | Loaded(landmarks: seq<Landmark>, categories: seq<Category>)
    | Cancelled
    | Failed(description: string)   // the error's localised description

  class LandmarkViewModel {
    var landmarks: seq<Landmark>
    var categories: seq<Category>
    var isLoading: bool
    var errorMessage: Option<string>

    constructor ()
      ensures landmarks == [] && categories == [] && !isLoading && errorMessage == None
    {
      landmarks := [];
      categories := [];
      isLoading := false;
      errorMessage := None;
    }

    /** The state shown while the fetches are awaited: loading, no error, the previous lists. */
    method BeginLoading()
      modifies this`isLoading, this`errorMessage
      ensures isLoading && errorMessage == None
      ensures landmarks == old(landmarks) && categories == old(categories)
    {
      isLoading := true;
      errorMessage := None;
    }

    /**
     * The state once the fetches are over: not loading; both lists replaced
     * on success, neither otherwise; an error message only for a failure.
     */
    method FinishLoading(outcome: LoadOutcome)
      requires isLoading && errorMessage == None
      modifies this`landmarks, this`categories, this`isLoading, this`errorMessage
      ensures !isLoading
      ensures outcome.Loaded? ==>
        landmarks == outcome.landmarks && categories == outcome.categories && errorMessage == None
      ensures outcome.Cancelled? ==>
        landmarks == old(landmarks) && categories == old(categories) && errorMessage == None
      ensures outcome.Failed? ==>
        landmarks == old(landmarks) && categories == old(categories) && errorMessage == Some(outcome.description)
    {
      match outcome {
        case Loaded(fetchedLandmarks, fetchedCategories) =>
          landmarks := fetchedLandmarks;
          categories := fetchedCategories;
        case Cancelled =>
        case Failed(description) =>
          errorMessage := Some(description);
      }
      isLoading := false;
    }

    /**
     * `loadData`: whatever the outcome, loading is over afterwards, and the
     * two lists are replaced together or not at all.
     */
    method LoadData(outcome: LoadOutcome)
      modifies this`landmarks, this`categories, this`isLoading, this`errorMessage
      ensures !isLoading
      ensures (landmarks, categories) == if outcome.Loaded? then (outcome.landmarks, outcome.categories)
                                         else (old(landmarks), old(categories))
      ensures errorMessage == if outcome.Failed? then Some(outcome.description) else None
    {
      BeginLoading();
      FinishLoading(outcome);
    }
  }
}
