/**
  The two form buffers of the page: the draft of a new Section (its target Week,
  type, name, image list and the URL being typed) and the draft of the Section
  being edited (its name, image list and the URL being typed). The page keeps them
  in component state and updates them step by step; here they are the fields of
  a `Drafts` object whose methods are the page's handlers.
 */
module Editor {
  import opened Text
  import Portfolio

  /** A list every entry of which is a non-empty URL without surrounding whitespace. */
  predicate AllClean(images: seq<string>) {
    forall i :: 0 <= i < |images| ==> images[i] != [] && IsTrimmed(images[i])
  }

  /** Adding an image: the trimmed URL goes to the end, unless the URL is blank. */
  function AddImage(images: seq<string>, url: string): (r: seq<string>)
    ensures IsBlank(url) ==> r == images
    ensures !IsBlank(url) ==>
      && |r| == |images| + 1 && r[..|images|] == images
      && r[|images|] == Trim(url) && r[|images|] != [] && IsTrimmed(r[|images|])
  {
    if Trim(url) != [] then images + [Trim(url)] else images
  }

  /** `images.filter((_, i) => i !== index)`: every entry whose position is not `index`. */
  function RemoveImage(images: seq<string>, index: int): (r: seq<string>)
    ensures 0 <= index < |images| ==> r == images[..index] + images[index + 1..]
    ensures !(0 <= index < |images|) ==> r == images
  {
    if images == [] then []
    else
      var rest := RemoveImage(images[1..], index - 1);
      if index == 0 then rest
      else
        assert 0 < index < |images| ==> images[1..][..index - 1] == images[1..index];
        [images[0]] + rest
  }

  /**
    Removing the image at the position just past the old list undoes adding one:
    a non-blank URL's image is taken off again, and a blank URL added nothing.
   */
  lemma RemoveUndoesAdd(images: seq<string>, url: string)
    ensures RemoveImage(AddImage(images, url), |images|) == images
  {
    var added := AddImage(images, url);
    if IsBlank(url) {
      assert added == images;
    } else {
      assert added == images + [Trim(url)];
      assert added[..|images|] == images;
    }
  }

  lemma AddImageKeepsClean(images: seq<string>, url: string)
    requires AllClean(images)
    ensures AllClean(AddImage(images, url))
  {
  }

  lemma RemoveImageKeepsClean(images: seq<string>, index: int)
    requires AllClean(images)
    ensures AllClean(RemoveImage(images, index))
  {
    if 0 <= index < |images| {
      var r := RemoveImage(images, index);
      forall i | 0 <= i < |r| ensures r[i] != [] && IsTrimmed(r[i]) {
        assert r[i] == if i < index then images[i] else images[i + 1];
      }
    }
  }

  class Drafts {
    // draft of a new Section
    var newSectionRecordId: string
    var newSectionWeekId: string
    var newSectionType: Portfolio.SectionType
    var newSectionName: string
    var newSectionImages: seq<string>
    var newSectionImageUrl: string
    // draft of the Section being edited
    var editingSectionName: string
    var editingSectionImages: seq<string>
    var newImageUrl: string

    constructor ()
      ensures newSectionRecordId == "" && newSectionWeekId == "" && newSectionType == Portfolio.Task
      ensures newSectionName == "" && newSectionImages == [] && newSectionImageUrl == ""
      ensures editingSectionName == "" && editingSectionImages == [] && newImageUrl == ""
    {
      newSectionRecordId, newSectionWeekId, newSectionType := "", "", Portfolio.Task;
      newSectionName, newSectionImages, newSectionImageUrl := "", [], "";
      editingSectionName, editingSectionImages, newImageUrl := "", [], "";
    }

    /** `createSection`: aims the new-section draft at a Week, with the chosen type and nothing else in it. */
    method BeginNewSection(recordId: string, weekId: string, kind: Portfolio.SectionType)
      modifies this`newSectionRecordId, this`newSectionWeekId, this`newSectionType
      modifies this`newSectionName, this`newSectionImages, this`newSectionImageUrl
      ensures newSectionRecordId == recordId && newSectionWeekId == weekId && newSectionType == kind
      ensures newSectionName == "" && newSectionImages == [] && newSectionImageUrl == ""
    {
      newSectionRecordId, newSectionWeekId, newSectionType := recordId, weekId, kind;
      newSectionName, newSectionImages, newSectionImageUrl := "", [], "";
    }

    /** `addImageToNewSection`: adds the typed URL and clears the field, unless the URL is blank. */
    method AddImageToNewSection()
      modifies this`newSectionImages, this`newSectionImageUrl
      ensures newSectionImages == AddImage(old(newSectionImages), old(newSectionImageUrl))
      ensures newSectionImageUrl == if IsBlank(old(newSectionImageUrl)) then old(newSectionImageUrl) else ""
      ensures AllClean(old(newSectionImages)) ==> AllClean(newSectionImages)
    {
      var url := Trim(newSectionImageUrl);
      if url != [] {
        newSectionImages := newSectionImages + [url];
        newSectionImageUrl := "";
      }
    }

    /** `removeImageFromNewSection`: drops the image at `index`; any other index changes nothing. */
    method RemoveImageFromNewSection(index: int)
      modifies this`newSectionImages
      ensures newSectionImages == RemoveImage(old(newSectionImages), index)
      ensures AllClean(old(newSectionImages)) ==> AllClean(newSectionImages)
    {
      if AllClean(newSectionImages) {
        RemoveImageKeepsClean(newSectionImages, index);
      }
      newSectionImages := RemoveImage(newSectionImages, index);
    }

    /** `cancelNewSection`: empties the draft's name, images and URL field. */
    method CancelNewSection()
      modifies this`newSectionName, this`newSectionImages, this`newSectionImageUrl
      ensures newSectionName == "" && newSectionImages == [] && newSectionImageUrl == ""
    {
      newSectionName, newSectionImages, newSectionImageUrl := "", [], "";
    }

    /** `saveNewSection`: the tree that results from saving the draft into `data`; the draft stays as it is. */
    method SaveNewSection(data: Portfolio.AppData, id: string, now: string) returns (r: Portfolio.AppData)
      ensures r == Portfolio.SaveNewSection(data, newSectionRecordId, newSectionWeekId, newSectionType,
                                            newSectionName, newSectionImages, id, now)
      ensures IsBlank(newSectionName) ==> r == data
    {
      r := Portfolio.SaveNewSection(data, newSectionRecordId, newSectionWeekId, newSectionType,
                                    newSectionName, newSectionImages, id, now);
    }

    /** `startEditingSection`: loads a Section's name and a copy of its image list into the edit draft. */
    method StartEditingSection(section: Portfolio.Section)
      modifies this`editingSectionName, this`editingSectionImages, this`newImageUrl
      ensures editingSectionName == section.name && editingSectionImages == section.imageUrls && newImageUrl == ""
    {
      editingSectionName, editingSectionImages, newImageUrl := section.name, section.imageUrls, "";
    }

    /** `addImageToSection`: adds the typed URL to the edit draft and clears the field, unless the URL is blank. */
    method AddImageToSection()
      modifies this`editingSectionImages, this`newImageUrl
      ensures editingSectionImages == AddImage(old(editingSectionImages), old(newImageUrl))
      ensures newImageUrl == if IsBlank(old(newImageUrl)) then old(newImageUrl) else ""
    {
      var url := Trim(newImageUrl);
      if url != [] {
        editingSectionImages := editingSectionImages + [url];
        newImageUrl := "";
      }
    }

    /** `removeImageFromSection`: drops the edit draft's image at `index`; any other index changes nothing. */
    method RemoveImageFromSection(index: int)
      modifies this`editingSectionImages
      ensures editingSectionImages == RemoveImage(old(editingSectionImages), index)
    {
      editingSectionImages := RemoveImage(editingSectionImages, index);
    }

    /** `cancelEditing`: empties the edit draft. */
    method CancelEditing()
      modifies this`editingSectionName, this`editingSectionImages, this`newImageUrl
      ensures editingSectionName == "" && editingSectionImages == [] && newImageUrl == ""
    {
      editingSectionName, editingSectionImages, newImageUrl := "", [], "";
    }

    /** `saveSection`: the tree that results from writing the edit draft, untrimmed, into the Section on the path. */
    method SaveSection(data: Portfolio.AppData, recordId: string, weekId: string, sectionId: string)
      returns (r: Portfolio.AppData)
      ensures r == Portfolio.SaveSection(data, recordId, weekId, sectionId, editingSectionName, editingSectionImages)
    {
      r := Portfolio.SaveSection(data, recordId, weekId, sectionId, editingSectionName, editingSectionImages);
    }
  }
}
