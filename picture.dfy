/** The single-image page: choosing a file, previewing it, uploading it for detection
    and showing what came back. */
module Picture {
  import opened Js

  /** A file as the file input hands it over: its name, MIME type and size in bytes. */
  datatype File = File(name: string, mimeType: string, size: nat)

  /** The previewed image: the file, the `data:` URL the reader produced, its name and size. */
  datatype SelectedImage = SelectedImage(file: File, dataUrl: string, name: string, size: nat)

  /** One detection as the page keeps it. Fields the reply did not have are `None`. */
  datatype Detection = Detection(bbox: Option<Json>, confidence: Option<Json>, classId: int, className: Option<Json>)

  datatype DetectionResult = DetectionResult(visualization: Option<Json>, headUpRate: Option<Json>, detections: seq<Detection>)

  const ValidTypes: seq<string> := ["image/jpeg", "image/jpg", "image/png"]
  const InvalidFileText := "请上传有效的图片文件 (JPG, PNG, JPEG)"
  const NoImageText := "请先上传图片"
  const DetectFailedText := "图片检测失败，请稍后再试"
  const HeadUpClass := "head_up"

  /** `isValidImageFile`: the three accepted MIME types and no other. */
  predicate IsValidImageFile(file: File)
    ensures IsValidImageFile(file) <==>
              file.mimeType == "image/jpeg" || file.mimeType == "image/jpg" || file.mimeType == "image/png"
  {
    file.mimeType in ValidTypes
  }

  /** The class number: 1 for a `"head_up"` detection, 0 for anything else. */
  function ClassId(name: Option<Json>): (id: int)
    ensures id == 1 <==> name == Some(JStr(HeadUpClass))
    ensures id == 0 || id == 1
  {
    if name == Some(JStr(HeadUpClass)) then 1 else 0
  }

  /** The object literal the `.map` callback builds from one reply item. */
  function ToDetection(item: Json): Detection {
    Detection(Get(item, "box"), Get(item, "confidence"), ClassId(Get(item, "class")), Get(item, "class"))
  }

  /** No item is `null`. */
  predicate NoNullItems(items: seq<Json>) {
    forall i :: 0 <= i < |items| ==> !items[i].JNull?
  }

  /** The `.map` over the reply's detections; `None` is the TypeError that reading a
      property of a `null` item throws. */
  function MapDetections(items: seq<Json>): (r: Option<seq<Detection>>)
    ensures r.Some? <==> NoNullItems(items)
    ensures r.Some? ==> |r.value| == |items|
    ensures r.Some? ==> forall i :: 0 <= i < |items| ==> r.value[i] == ToDetection(items[i])
  {
    if items == [] then Some([])
    else
      NoNullItemsCons(items);
      if items[0].JNull? then None
      else
        var rest := MapDetections(items[1..]);
        if rest.None? then None
        else
          var r := [ToDetection(items[0])] + rest.value;
          assert forall i :: 1 <= i < |items| ==> r[i] == rest.value[i - 1] && items[i] == items[1..][i - 1];
          Some(r)
  }

  lemma NoNullItemsCons(items: seq<Json>)
    requires items != []
    ensures NoNullItems(items) <==> !items[0].JNull? && NoNullItems(items[1..])
  {
    assert forall i :: 1 <= i < |items| ==> items[i] == items[1..][i - 1];
  }

  /** Each mapped detection copies `box` to `bbox`, keeps `confidence` and the class
      name, and numbers the class 1 exactly for `"head_up"`. */
  lemma DetectionFields(item: Json)
    ensures var d := ToDetection(item);
            && d.bbox == Get(item, "box") && d.confidence == Get(item, "confidence")
            && d.className == Get(item, "class")
            && (d.classId == 1 <==> Get(item, "class") == Some(JStr(HeadUpClass)))
            && (d.classId != 1 ==> d.classId == 0)
  {
  }

  /** Mapping keeps the order: mapping two runs of items one after the other is mapping
      them together. */
  lemma {:induction false} MapDetectionsConcat(a: seq<Json>, b: seq<Json>)
    requires NoNullItems(a) && NoNullItems(b)
    ensures MapDetections(a + b) == Some(MapDetections(a).value + MapDetections(b).value)
  {
    var ab := a + b;
    assert NoNullItems(ab) by {
      forall i | 0 <= i < |ab| ensures !ab[i].JNull? {
        if i < |a| { assert ab[i] == a[i]; } else { assert ab[i] == b[i - |a|]; }
      }
    }
    var ma, mb, mab := MapDetections(a).value, MapDetections(b).value, MapDetections(ab).value;
    assert |mab| == |ma + mb|;
    forall i | 0 <= i < |ab| ensures mab[i] == (ma + mb)[i] {
      if i < |a| { assert ab[i] == a[i]; } else { assert ab[i] == b[i - |a|]; }
    }
    assert mab == ma + mb;
  }

  /** The number of detections whose class is 1. */
  function CountHeadUp(ds: seq<Detection>): nat {
    if ds == [] then 0 else (if ds[0].classId == 1 then 1 else 0) + CountHeadUp(ds[1..])
  }

  /** The number of items whose class name is `"head_up"`. */
  function CountHeadUpItems(items: seq<Json>): nat {
    if items == [] then 0 else (if Get(items[0], "class") == Some(JStr(HeadUpClass)) then 1 else 0) + CountHeadUpItems(items[1..])
  }

  /** The mapped detections count exactly as many head-up objects as the reply named. */
  lemma {:induction false} HeadUpCountKept(items: seq<Json>)
    requires MapDetections(items).Some?
    ensures CountHeadUp(MapDetections(items).value) == CountHeadUpItems(items)
  {
    if items != [] {
      assert NoNullItems(items[1..]) by {
        forall i | 0 <= i < |items[1..]| ensures !items[1..][i].JNull? {
          assert items[1..][i] == items[i + 1];
        }
      }
      HeadUpCountKept(items[1..]);
      var ds := MapDetections(items).value;
      assert ds[1..] == MapDetections(items[1..]).value;
    }
  }

  /** The reads `response.result.visualization`, `.head_up_rate` and
      `.detections.map(…)` on the value the upload resolved with; `None` when one of
      them throws (no `result`, `detections` not an array, or a `null` detection). */
  function ReadDetectionResult(response: Json): (r: Option<DetectionResult>)
    ensures r.Some? <==>
              !response.JNull? && Get(response, "result").Some? &&
              Get(Get(response, "result").value, "detections").Some? &&
              Get(Get(response, "result").value, "detections").value.JArr? &&
              MapDetections(Get(Get(response, "result").value, "detections").value.items).Some?
    ensures r.Some? ==>
              var result := Get(response, "result").value;
              r.value == DetectionResult(Get(result, "visualization"), Get(result, "head_up_rate"),
                                         MapDetections(Get(result, "detections").value.items).value)
  {
    if response.JNull? then None
    else
      var result := Get(response, "result");
      if result.None? || result.value.JNull? then None
      else
        var detections := Get(result.value, "detections");
        if detections.None? || !detections.value.JArr? then None
        else
          var mapped := MapDetections(detections.value.items);
          if mapped.None? then None
          else Some(DetectionResult(Get(result.value, "visualization"), Get(result.value, "head_up_rate"), mapped.value))
  }

  class PicturePage {
    var selected: Option<SelectedImage>
    var results: Option<DetectionResult>
    var processing: bool
    var error: Option<string>
    /** Whether the (hidden) file input still holds a choice. */
    var inputHasFile: bool
    /** Files whose reader has not yet called back. */
    var pendingReads: multiset<File>

    constructor ()
      ensures selected.None? && results.None? && !processing && error.None?
      ensures !inputHasFile && pendingReads == multiset{}
    {
      selected, results, processing, error := None, None, false, None;
      inputHasFile := false;
      pendingReads := multiset{};
    }

    /** The detect button is showing. */
    predicate ShowDetectButton()
      reads this
    {
      selected.Some? && !processing && results.None?
    }

    /** `handleFileChange`: an invalid first file only alerts; a valid one starts a read. */
    method ChooseFile(files: seq<File>) returns (alert: Option<string>)
      modifies this
      ensures alert.Some? <==> files != [] && !IsValidImageFile(files[0])
      ensures alert.Some? ==> alert == Some(InvalidFileText)
      ensures alert.None? ==> pendingReads == old(pendingReads) + (if files != [] then multiset{files[0]} else multiset{})
      ensures alert.Some? ==> pendingReads == old(pendingReads)
      ensures inputHasFile == (files != [])
      ensures selected == old(selected) && results == old(results) && error == old(error) && processing == old(processing)
    {
      inputHasFile := files != [];
      alert := None;
      if files != [] {
        var file := files[0];
        if !IsValidImageFile(file) {
          return Some(InvalidFileText);
        }
        pendingReads := pendingReads + multiset{file};
      }
    }

    /** The reader's `onload` for `file`: a non-empty result becomes the selection and
        clears the results and the error. */
    method FileLoaded(file: File, result: Option<string>)
      requires file in pendingReads
      modifies this
      ensures pendingReads == old(pendingReads) - multiset{file}
      ensures TruthyText(result) ==>
                selected == Some(SelectedImage(file, result.value, file.name, file.size)) &&
                results.None? && error.None?
      ensures !TruthyText(result) ==> selected == old(selected) && results == old(results) && error == old(error)
      ensures processing == old(processing) && inputHasFile == old(inputHasFile)
    {
      pendingReads := pendingReads - multiset{file};
      if TruthyText(result) {
        selected := Some(SelectedImage(file, result.value, file.name, file.size));
        results := None;
        error := None;
      }
    }

    /** `handleRemoveImage`. */
    method RemoveImage()
      modifies this
      ensures selected.None? && results.None? && error.None? && !inputHasFile
      ensures processing == old(processing) && pendingReads == old(pendingReads)
    {
      selected := None;
      results := None;
      error := None;
      inputHasFile := false;
    }

    /** The first half of `handleDetectImage`, up to the upload; `upload` is the file
        sent, if any. */
    method StartDetect() returns (upload: Option<File>)
      modifies this
      ensures old(selected).None? ==> upload.None? && error == Some(NoImageText) && processing == old(processing)
      ensures old(selected).Some? ==> upload == Some(old(selected).value.file) && processing && error.None?
      ensures !ShowDetectButton() || old(selected).None?
      ensures selected == old(selected) && results == old(results)
      ensures inputHasFile == old(inputHasFile) && pendingReads == old(pendingReads)
    {
      if selected.None? {
        error := Some(NoImageText);
        return None;
      }
      processing := true;
      error := None;
      upload := Some(selected.value.file);
    }

    /** The rest of `handleDetectImage`: the upload resolved with `response` or
        rejected (`None`). Success stores the mapped result; failure, including a read
        that throws, sets the error and keeps the old result; processing ends either way. */
    method FinishDetect(response: Option<Json>)
      requires processing
      modifies this
      ensures var read := if response.Some? then ReadDetectionResult(response.value) else None;
              && (read.Some? ==> results == read && error == old(error))
              && (read.None? ==> results == old(results) && error == Some(DetectFailedText))
      ensures !processing
      ensures selected == old(selected) && inputHasFile == old(inputHasFile) && pendingReads == old(pendingReads)
    {
      var read := if response.Some? then ReadDetectionResult(response.value) else None;
      if read.Some? {
        results := read;
      } else {
        error := Some(DetectFailedText);
      }
      processing := false;
    }
  }
}
