/**
 * `components/Memories.tsx`: the photo album (a list to which new memories are
 * prepended, shown newest or oldest first) and the add-memory form with its
 * file-size check, field validation, story request and reset.
 */
module Memories {
  import opened Types
  import opened Text
  import opened Seqs
  import opened GeminiService

  // ---------------------------------------------------------------------------
  // the album

  datatype SortOrder = Newest | Oldest

  /** `sortedMemories`: a copy of the stored list, as it is for "newest" and reversed for "oldest". */
  function SortedMemories(ms: seq<MemoryItem>, order: SortOrder): (d: seq<MemoryItem>)
    ensures order == Newest ==> d == ms
    ensures order == Oldest ==> |d| == |ms| && forall i :: 0 <= i < |ms| ==> d[i] == ms[|ms| - 1 - i]
    ensures multiset(d) == multiset(ms)
  {
    if order == Oldest then
      var r := Reverse(ms);
      assert multiset(r) == multiset(ms) by { ReverseMultiset(ms); }
      r
    else ms
  }

  /** After a memory is added it is shown first in the "newest" view and last in the "oldest"
      view, with the earlier ones after it (newest) or before it (oldest) in their old order. */
  lemma AddedMemoryPosition(m: MemoryItem, ms: seq<MemoryItem>)
    ensures SortedMemories([m] + ms, Newest) == [m] + SortedMemories(ms, Newest)
    ensures SortedMemories([m] + ms, Oldest) == SortedMemories(ms, Oldest) + [m]
  {
    ReverseCons(m, ms);
  }

  /** Switching to "oldest" and back shows the stored order again. */
  lemma OldestOfOldestIsStored(ms: seq<MemoryItem>)
    ensures Reverse(SortedMemories(ms, Oldest)) == SortedMemories(ms, Newest)
  {
    ReverseReverse(ms);
  }

  const InitialMemories := [
    MemoryItem("mem1", "https://picsum.photos/seed/cottage/500/700", "Gram and Dale at the cottage, laughing",
      "Here's that unforgettable summer day at the cottage. Gram's laughter was so infectious as she and Dale shared stories on the porch, a perfect moment of simple joy.",
      "Summer 1998", Stacey),
    MemoryItem("mem2", "https://picsum.photos/seed/wedding/600/400", "Mom and Dad's wedding day",
      "A beautiful snapshot from the wedding day. The look of pure happiness on their faces says it all – the start of a wonderful journey together.",
      "June 1985", Craig),
    MemoryItem("mem3", "https://picsum.photos/seed/fishing/500/300", "First fishing trip",
      "Look at that concentration! This was the very first fishing trip, an early morning filled with excitement and a little bit of beginner's luck. A core memory for sure.",
      "July 2002", Stacey)]

  class Album {
    var memories: seq<MemoryItem>
    var sortOrder: SortOrder

    /** The album opens on the three seed memories, newest first. */
    constructor ()
      ensures memories == InitialMemories && sortOrder == Newest
    {
      memories, sortOrder := InitialMemories, Newest;
    }

    /** `addMemory`: the new memory goes to index 0, the earlier ones follow in their order. */
    method AddMemory(m: MemoryItem)
      modifies this`memories
      ensures memories == [m] + old(memories)
      ensures memories[0] == m && memories[1..] == old(memories)
    {
      memories := [m] + memories;
    }

    method SetSortOrder(order: SortOrder)
      modifies this`sortOrder
      ensures sortOrder == order
    {
      sortOrder := order;
    }

    /** The list the grid shows; reading it changes nothing. */
    function Displayed(): (d: seq<MemoryItem>)
      reads this
      ensures d == SortedMemories(memories, sortOrder)
      ensures multiset(d) == multiset(memories)
    {
      SortedMemories(memories, sortOrder)
    }
  }

  // ---------------------------------------------------------------------------
  // the add-memory form

  const MaxImageBytes := 4 * 1024 * 1024
  const TooLargeError := "Image is too large. Please choose a file smaller than 4MB."
  const MissingFieldsError := "Please fill out all fields and select an image."
  const GenerateFailedError := "Failed to generate memory. Please try again."

  /** The parts of a browser `File` the form looks at. */
  datatype ImageFile = ImageFile(name: string, size: nat, mimeType: string)

  /** The values the submit handler captured when it started. */
  datatype Submission = Submission(prompt: string, date: string, file: ImageFile, preview: Option<string>)

  /** How reading the image back as base64 ended; a rejection lands in the handler's `catch`. */
  datatype ReadOutcome = ReadOk | ReadFailed

  /** The memory a successful submission produces; its id is `mem` followed by the clock. */
  function NewMemory(sub: Submission, story: Reply, now: nat): (m: MemoryItem)
    ensures m.prompt == sub.prompt && m.date == sub.date && m.uploadedBy == Craig
    ensures m.story == MemoryStory(story)
    ensures m.id == "mem" + NatToString(now)
  {
    MemoryItem("mem" + NatToString(now), sub.preview.GetOr([]), sub.prompt, MemoryStory(story), sub.date, Craig)
  }

  class AddMemoryForm {
    var prompt: string
    var date: string
    var imageFile: Option<ImageFile>
    var previewUrl: Option<string>
    var isLoading: bool
    var error: string

    constructor ()
      ensures prompt == [] && date == [] && imageFile == None && previewUrl == None
      ensures !isLoading && error == []
    {
      prompt, date, imageFile, previewUrl := [], [], None, None;
      isLoading, error := false, [];
    }

    method EditPrompt(p: string)
      modifies this`prompt
      ensures prompt == p
    {
      prompt := p;
    }

    method EditDate(d: string)
      modifies this`date
      ensures date == d
    {
      date := d;
    }

    /** `handleFileChange`: no file changes nothing; a file over 4 MiB sets the error and keeps the
        previously chosen file; any other file is taken and clears the error. */
    method FileChanged(file: Option<ImageFile>)
      modifies this`imageFile, this`error
      ensures file == None ==> imageFile == old(imageFile) && error == old(error)
      ensures file.Some? && file.value.size > MaxImageBytes ==> imageFile == old(imageFile) && error == TooLargeError
      ensures file.Some? && file.value.size <= MaxImageBytes ==> imageFile == file && error == []
    {
      if file.Some? {
        if file.value.size > MaxImageBytes {
          error := TooLargeError;
          return;
        }
        imageFile := file;
        error := [];
      }
    }

    /** The `FileReader` finished: its data URL becomes the preview. */
    method PreviewLoaded(url: string)
      modifies this`previewUrl
      ensures previewUrl == Some(url)
    {
      previewUrl := Some(url);
    }

    /** The part of `handleSubmit` before the first `await`: with no image, a blank prompt or a
        blank date the error is set and nothing is sent; otherwise the error is cleared, loading
        starts and the handler's captured values are returned. */
    method BeginSubmit() returns (sub: Option<Submission>)
      modifies this`isLoading, this`error
      ensures imageFile == None || IsBlank(prompt) || IsBlank(date) ==>
        sub == None && error == MissingFieldsError && isLoading == old(isLoading)
      ensures imageFile != None && !IsBlank(prompt) && !IsBlank(date) ==>
        sub == Some(Submission(prompt, date, imageFile.value, previewUrl)) && error == [] && isLoading
    {
      if imageFile == None || IsBlank(prompt) || IsBlank(date) {
        error := MissingFieldsError;
        return None;
      }
      error := [];
      isLoading := true;
      return Some(Submission(prompt, date, imageFile.value, previewUrl));
    }

    /** The rest of `handleSubmit`. If the image was read, exactly one memory is added to the album
        and the four fields are reset; if reading failed, the error is set and the album is left
        alone. Loading stops either way. The story request handles its own failure. */
    method CompleteSubmit(sub: Submission, read: ReadOutcome, story: Reply, now: nat, album: Album)
      modifies this, album`memories
      ensures !isLoading
      ensures read == ReadOk ==>
        && album.memories == [NewMemory(sub, story, now)] + old(album.memories)
        && prompt == [] && date == [] && imageFile == None && previewUrl == None
        && error == old(error)
      ensures read == ReadFailed ==>
        && album.memories == old(album.memories)
        && error == GenerateFailedError
        && prompt == old(prompt) && date == old(date) && imageFile == old(imageFile) && previewUrl == old(previewUrl)
    {
      if read == ReadFailed {
        error := GenerateFailedError;
      } else {
        album.AddMemory(NewMemory(sub, story, now));
        prompt, date, imageFile, previewUrl := [], [], None, None;
      }
      isLoading := false;
    }
  }
}
