/** The page's session state and the handlers that change it. Each handler runs as
    one step: the reply of the service it calls is a parameter, and it returns the
    request it issues (None when it issues none). */
module App {
  import opened JsonValue
  import opened ResultPanel
  import Render

  /** A file picked in the file input; its bytes are not modelled. */
  datatype ImageFile = ImageFile(name: string)

  /** What a service call yields: the parsed payload, or failure (a network error,
      a response that is not ok, or a body that does not parse). */
  datatype Reply<T> = Ok(payload: T) | Fail

  /** The three service requests: predict from an uploaded file, predict from an
      image URL, and fetch the description of one flower class. */
  datatype Request =
    | PredictFile(file: ImageFile)
    | PredictUrl(imageUrl: string)
    | FetchFlowerInfo(flowerClass: string)

  const NoFileMessage := "Please select an image file."
  const FileFailMessage := "Failed to get predictions for file upload."
  const UrlFailMessage := "Failed to get predictions for URL."
  const InfoFailMessage := "Failed to get flower info."

  /** The only texts the error line ever shows; "" shows nothing. */
  predicate KnownError(e: string) {
    e == "" || e == NoFileMessage || e == FileFailMessage || e == UrlFailMessage || e == InfoFailMessage
  }

  /** What the page shows for a session: the error line (when the error is not
      empty), the result buttons, the detail panel, and the text that stands in the
      panel's place while it is closed. */
  datatype Screen = Screen(errorLine: Option<string>, results: seq<ResultRow>, detail: Option<Render.Detail>,
                           closedText: Option<string>)

  class Session {
    var file: Option<ImageFile>
    var imageUrl: string
    var flowerInfo: Json
    var predictions: seq<Prediction>
    var error: string

    predicate Valid()
      reads this
    {
      KnownError(error)
    }

    constructor ()
      ensures Valid()
      ensures file == None && imageUrl == "" && flowerInfo == Null
      ensures predictions == [] && error == ""
    {
      file := None;
      imageUrl := "";
      flowerInfo := Null;
      predictions := [];
      error := "";
    }

    /** `handleFileChange`: keep the first picked file; an empty or missing file
        list leaves the current choice as it is. */
    method FileChange(files: Option<seq<ImageFile>>)
      requires Valid()
      modifies this`file
      ensures Valid()
      ensures files.Some? && |files.value| > 0 ==> file == Some(files.value[0])
      ensures !(files.Some? && |files.value| > 0) ==> file == old(file)
    {
      if files.Some? && |files.value| > 0 {
        file := Some(files.value[0]);
      }
    }

    /** `handleUrlChange`: the text field's value becomes the URL; the picked file
        is kept. */
    method UrlChange(value: string)
      requires Valid()
      modifies this`imageUrl
      ensures Valid()
      ensures imageUrl == value
    {
      imageUrl := value;
    }

    /** `handleFileUpload`: without a file, report it and send nothing; otherwise
        send the file, then take the predictions and clear the error, or report
        the failure and keep the old predictions. */
    method FileUpload(reply: Reply<seq<Prediction>>) returns (sent: Option<Request>)
      requires Valid()
      modifies this`predictions, this`error
      ensures Valid()
      ensures old(file).None? ==> sent.None? && error == NoFileMessage && predictions == old(predictions)
      ensures old(file).Some? ==> sent == Some(PredictFile(file.value))
      ensures old(file).Some? && reply.Ok? ==> predictions == reply.payload && error == ""
      ensures old(file).Some? && reply.Fail? ==> predictions == old(predictions) && error == FileFailMessage
    {
      if file.None? {
        error := NoFileMessage;
        return None;
      }
      sent := Some(PredictFile(file.value));
      match reply
      case Ok(top5) =>
        predictions := top5;
        error := "";
      case Fail =>
        error := FileFailMessage;
    }

    /** `handleUrlSubmit`: send the URL as it stands (an empty one too), then take
        the predictions and clear the error, or report the failure and keep the
        old predictions. */
    method UrlSubmit(reply: Reply<seq<Prediction>>) returns (sent: Option<Request>)
      requires Valid()
      modifies this`predictions, this`error
      ensures Valid()
      ensures sent == Some(PredictUrl(imageUrl))
      ensures reply.Ok? ==> predictions == reply.payload && error == ""
      ensures reply.Fail? ==> predictions == old(predictions) && error == UrlFailMessage
    {
      sent := Some(PredictUrl(imageUrl));
      match reply
      case Ok(top5) =>
        predictions := top5;
        error := "";
      case Fail =>
        error := UrlFailMessage;
    }

    /** `handleFlowerButtonClick`: ask for the class's description, then open it
        and clear the error, or report the failure and keep whatever was open. */
    method FlowerButtonClick(flowerClass: string, reply: Reply<Json>) returns (sent: Option<Request>)
      requires Valid()
      modifies this`flowerInfo, this`error
      ensures Valid()
      ensures sent == Some(FetchFlowerInfo(flowerClass))
      ensures reply.Ok? ==> flowerInfo == reply.payload && error == ""
      ensures reply.Fail? ==> flowerInfo == old(flowerInfo) && error == InfoFailMessage
    {
      sent := Some(FetchFlowerInfo(flowerClass));
      match reply
      case Ok(data) =>
        flowerInfo := data;
        error := "";
      case Fail =>
        error := InfoFailMessage;
    }

    /** The Close button: `setFlowerInfo(null)`. */
    method Close()
      requires Valid()
      modifies this`flowerInfo
      ensures Valid()
      ensures flowerInfo == Null
      ensures !Truthy(flowerInfo)
    {
      flowerInfo := Null;
    }

    /** The page for the current state: the error line appears only for a non-empty
        error, and in a valid session that is one of the four messages; every result
        button stands for a visible prediction; the detail panel is open exactly while
        `flowerInfo` is truthy; and a `flowerInfo` of 0 shows as the text "0". */
    function View(): (s: Screen)
      reads this
      ensures s.errorLine.Some? <==> error != ""
      ensures s.errorLine.Some? ==> s.errorLine.value == error
      ensures Valid() && s.errorLine.Some? ==>
                s.errorLine.value in {NoFileMessage, FileFailMessage, UrlFailMessage, InfoFailMessage}
      ensures s.results == ResultRows(predictions)
      ensures s.detail == Render.DetailView(flowerInfo)
      ensures s.detail.Some? <==> Truthy(flowerInfo)
      ensures s.detail.Some? ==> s.detail.value.heading == Render.Heading(flowerInfo)
      ensures s.closedText == Render.ClosedPanelText(flowerInfo)
      ensures s.closedText.Some? ==> s.detail.None? && s.closedText.value == "0"
    {
      Screen(if error != "" then Some(error) else None, ResultRows(predictions), Render.DetailView(flowerInfo),
             Render.ClosedPanelText(flowerInfo))
    }
  }

  /** A session walked through the page's main path: a file upload with no file, a
      URL prediction with a 92% rose and a 0% lily, opening the rose's details and
      closing them again. */
  method Walkthrough(info: Json)
    requires Truthy(info)
  {
    var s := new Session();
    var sent := s.FileUpload(Fail);
    assert sent.None? && s.error == NoFileMessage && s.predictions == [];

    var top5 := [Prediction("Rose", 9200, "r1"), Prediction("Lily", 0, "l1")];
    sent := s.UrlSubmit(Ok(top5));
    assert sent == Some(PredictUrl(""));
    RoseAndLily();
    var rows := s.View().results;
    assert rows[0].Caption() == "Rose: 92.00%" && |rows| == 1;

    sent := s.FlowerButtonClick(rows[0].ClassId(), Ok(info));
    assert sent == Some(FetchFlowerInfo("r1"));
    assert s.View().detail.Some? && s.error == "";

    s.Close();
    assert s.View().detail.None? && s.View().closedText.None?;
    assert s.predictions == top5 && s.error == "";
  }
}
