/**
 * The model router: a media-analysis request goes to the media model, every
 * other request to the default model. The two ids are the pipeline's
 * configured settings, passed in.
 */
module ModelRouter {
  import opened JsonValue
  import opened MediaDetector

  /** `_select_model`: exactly one of the two configured ids, chosen by the detector's verdict. */
  method SelectModel(userMessage: string, messages: Value, body: map<string, Value>,
                     mediaModel: string, defaultModel: string, ghost universe: set<Container>)
    returns (model: string)
    requires Closed(universe) && Within(messages, universe) && BodyWithin(body, universe)
    ensures MediaAnalysisRequest(userMessage, messages, body, universe) ==> model == mediaModel
    ensures !MediaAnalysisRequest(userMessage, messages, body, universe) ==> model == defaultModel
  {
    var media := IsMediaAnalysisRequest(userMessage, messages, body, universe);
    if media {
      model := mediaModel;
    } else {
      model := defaultModel;
    }
  }

  /**
   * With no messages and no media fields, the raw user text decides:
   * `look at photo.png` is routed to the media model, `hello there` to the default one.
   */
  method RoutingOnUserText() returns (photo: string, hello: string)
    ensures photo == "M" && hello == "D"
  {
    var list := new Container(List([]));
    var messages := Ref(list);
    var body: map<string, Value> := map[];
    assert Closed({list}) by {
      assert ChildrenIn(list, {list});
    }
    TextEndingInFileName();
    photo := SelectModel("look at photo.png", messages, body, "M", "D", {list});
    FalsyHasNoMedia(messages, {list});
    PlainTextIsNotMedia();
    hello := SelectModel("hello there", messages, body, "M", "D", {list});
  }
}
