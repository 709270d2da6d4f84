/** The upload surface (src/components/ImageUploader.jsx): which file, if any, is
    handed to the selection callback, and the `dragActive` highlight flag. */
module ImageUploader {
  import opened Wrappers

  /** A browser `File`: its display name and MIME type; the bytes are opaque here. */
  datatype File = File(name: string, mimeType: string)

  /** What a handler does besides updating `dragActive`: nothing, an alert, or a
      call of the selection callback with a file or with `null`. */
  datatype Effect = NoEffect | Alerted | Forwarded(image: Option<File>)

  /** The literal part of the pattern 'image.*'; its trailing `.*` may match nothing. */
  const ImageWord: string := "image"

  ghost predicate OccursAt(s: string, p: string, i: nat) {
    i + |p| <= |s| && s[i..i + |p|] == p
  }

  /** Whether `p` occurs anywhere in `s`. */
  function Contains(s: string, p: string): (r: bool)
    ensures r <==> exists i: nat :: OccursAt(s, p, i)
    decreases |s|
  {
    if |p| <= |s| && s[..|p|] == p then
      assert OccursAt(s, p, 0);
      true
    else if |p| > |s| then
      false
    else
      var r := Contains(s[1..], p);
      assert r ==> exists i: nat :: OccursAt(s, p, i) by {
        if r {
          var j: nat :| OccursAt(s[1..], p, j);
          assert s[j + 1..j + 1 + |p|] == s[1..][j..j + |p|];
          assert OccursAt(s, p, j + 1);
        }
      }
      assert (exists i: nat :: OccursAt(s, p, i)) ==> r by {
        if i: nat :| OccursAt(s, p, i) {
          assert i != 0;
          assert s[1..][i - 1..i - 1 + |p|] == s[i..i + |p|];
          assert OccursAt(s[1..], p, i - 1);
        }
      }
      r
  }

  /** `file.type.match('image.*')`: the regular expression is not anchored, so it
      matches exactly when "image" occurs somewhere in the MIME type. */
  predicate IsImageType(mimeType: string) {
    Contains(mimeType, ImageWord)
  }

  /** `validateAndSelect`: an image file is forwarded unchanged, any other file only
      raises an alert. */
  function ValidateAndSelect(file: File): (e: Effect)
    ensures e == Forwarded(Some(file)) <==> IsImageType(file.mimeType)
    ensures e == Alerted <==> !IsImageType(file.mimeType)
  {
    if IsImageType(file.mimeType) then Forwarded(Some(file)) else Alerted
  }

  /** `files && files[0]`: only the first file of a drop or picker list is looked at;
      an absent or empty list yields nothing. */
  function FirstFile(files: Option<seq<File>>): (f: Option<File>)
    ensures f.Some? <==> files.Some? && |files.value| > 0
    ensures f.Some? ==> f.value == files.value[0]
  {
    if files.Some? && |files.value| > 0 then Some(files.value[0]) else None
  }

  /** The part shared by `handleDrop` and `handleChange`. */
  function SelectFirst(files: Option<seq<File>>): (e: Effect)
    ensures FirstFile(files).None? ==> e == NoEffect
    ensures FirstFile(files).Some? ==> e == ValidateAndSelect(FirstFile(files).value)
  {
    match FirstFile(files)
    case None => NoEffect
    case Some(f) => ValidateAndSelect(f)
  }

  /** `handleDrag`: enter and over switch the highlight on, leave switches it off,
      any other event type leaves it as it was. */
  function NextDragActive(active: bool, eventType: string): (r: bool)
    ensures (eventType == "dragenter" || eventType == "dragover") ==> r
    ensures eventType == "dragleave" ==> !r
    ensures eventType != "dragenter" && eventType != "dragover" && eventType != "dragleave" ==> r == active
  {
    if eventType == "dragenter" || eventType == "dragover" then true
    else if eventType == "dragleave" then false
    else active
  }

  /** The drop zone and its one piece of state. */
  class DropZone {
    var dragActive: bool

    constructor ()
      ensures !dragActive
    {
      dragActive := false;
    }

    method HandleDrag(eventType: string)
      modifies this
      ensures dragActive == NextDragActive(old(dragActive), eventType)
    {
      if eventType == "dragenter" || eventType == "dragover" {
        dragActive := true;
      } else if eventType == "dragleave" {
        dragActive := false;
      }
    }

    /** A drop always ends the highlight, whether or not a file is forwarded. */
    method HandleDrop(files: Option<seq<File>>) returns (e: Effect)
      modifies this
      ensures !dragActive
      ensures e == SelectFirst(files)
    {
      dragActive := false;
      e := NoEffect;
      if files.Some? && |files.value| > 0 {
        e := ValidateAndSelect(files.value[0]);
      }
    }

    /** The hidden file input's change handler; it leaves the highlight alone. */
    method HandleChange(files: Option<seq<File>>) returns (e: Effect)
      ensures e == SelectFirst(files)
      ensures e.Forwarded? ==> e.image.Some? && IsImageType(e.image.value.mimeType)
    {
      e := NoEffect;
      if files.Some? && |files.value| > 0 {
        e := ValidateAndSelect(files.value[0]);
      }
    }

    /** The clear button forwards `null`. */
    method ClearImage() returns (e: Effect)
      ensures e == Forwarded(None)
    {
      e := Forwarded(None);
    }
  }

  // ----- Properties of the selection rules -----

  /** Whatever a drop or a pick forwards is the first file of the list, unchanged,
      and it has an image MIME type; nothing else ever reaches the callback. */
  lemma ForwardsOnlyFirstImage(files: Option<seq<File>>)
    ensures SelectFirst(files).Forwarded? <==>
              files.Some? && |files.value| > 0 && IsImageType(files.value[0].mimeType)
    ensures SelectFirst(files).Forwarded? ==> SelectFirst(files).image == Some(files.value[0])
  {
  }

  /** The MIME test on typical types: image types pass, a PDF is alerted, and because
      the pattern is not anchored so does any type that merely contains "image". */
  lemma MimeTypeExamples()
    ensures IsImageType("image/png") && IsImageType("image/jpeg")
    ensures !IsImageType("application/pdf")
    ensures IsImageType("application/x-image-data")
    ensures ValidateAndSelect(File("report.pdf", "application/pdf")) == Alerted
  {
    assert OccursAt("image/png", ImageWord, 0);
    assert OccursAt("image/jpeg", ImageWord, 0);
    assert OccursAt("application/x-image-data", ImageWord, 14);
    var pdf := "application/pdf";
    forall i: nat ensures !OccursAt(pdf, ImageWord, i) {
      if i + 5 <= |pdf| {
        // there is no 'm' in "application/pdf"
        assert pdf[i..i + 5][1] == pdf[i + 1];
        assert 'm' !in pdf;
      }
    }
  }

  /** The flag after a sequence of drag events, handled one after another. */
  function AfterDragEvents(active: bool, events: seq<string>): bool
    decreases |events|
  {
    if events == [] then active else AfterDragEvents(NextDragActive(active, events[0]), events[1..])
  }

  /** After a sequence of drag events, the last enter, over or leave decides the
      flag; a sequence with none of them leaves it as it was. */
  lemma {:induction false} LastDragEventDecides(active: bool, events: seq<string>)
    ensures events != [] && events[|events| - 1] == "dragleave" ==> !AfterDragEvents(active, events)
    ensures (events != [] && (events[|events| - 1] == "dragenter" || events[|events| - 1] == "dragover"))
              ==> AfterDragEvents(active, events)
    ensures (forall i :: 0 <= i < |events| ==>
               events[i] != "dragenter" && events[i] != "dragover" && events[i] != "dragleave")
              ==> AfterDragEvents(active, events) == active
    decreases |events|
  {
    if events != [] {
      var rest := events[1..];
      LastDragEventDecides(NextDragActive(active, events[0]), rest);
      if rest != [] {
        assert rest[|rest| - 1] == events[|events| - 1];
      }
      if forall i :: 0 <= i < |events| ==>
           events[i] != "dragenter" && events[i] != "dragover" && events[i] != "dragleave" {
        assert forall i :: 0 <= i < |rest| ==> rest[i] == events[i + 1];
      }
    }
  }
}
