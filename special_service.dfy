/** The on-site service request form: a category, a description and up to three
    photos; a submitted request is appended to the locally stored request list. */
module SpecialService {
  import opened Common

  const MaxPhotos: nat := 3
  const MsgTooManyPhotos: string := "Maximum 3 photos allowed"
  const MsgIncomplete: string := "Please select a category and describe your request."
  const MsgSubmitted: string := "Request submitted! We will contact you soon with a price."

  const CategoryIds: seq<string> := ["handyman", "cleaning", "personal-care", "yard-work", "other"]

  /** A picked image file, contents included. */
  datatype File = File(name: string, size: nat, kind: string, contents: seq<bv8>)

  /** What a stored request keeps of a photo. */
  datatype PhotoInfo = PhotoInfo(name: string, size: nat, kind: string)

  datatype Requester = Requester(name: string, phone: string, email: Option<string>)

  datatype Request = Request(category: string, description: string, photos: seq<PhotoInfo>,
                             userInfo: Requester, timestamp: string)

  function Info(f: File): PhotoInfo {
    PhotoInfo(f.name, f.size, f.kind)
  }

  /** The photos as the stored request lists them: name, size and type of each, in order. */
  function Infos(files: seq<File>): (r: seq<PhotoInfo>)
    ensures |r| == |files|
    ensures forall i :: 0 <= i < |files| ==>
              r[i].name == files[i].name && r[i].size == files[i].size && r[i].kind == files[i].kind
  {
    if files == [] then [] else [Info(files[0])] + Infos(files[1..])
  }

  /** `filter((_, i) => i !== index)` with the element positions counted from `offset`. */
  function DropIndex<T>(s: seq<T>, index: int, offset: int): seq<T> {
    if s == [] then []
    else (if offset == index then [] else [s[0]]) + DropIndex(s[1..], index, offset + 1)
  }

  lemma {:induction false} DropIndexAbsent<T>(s: seq<T>, index: int, offset: int)
    requires index < offset || index >= offset + |s|
    ensures DropIndex(s, index, offset) == s
  {
    if s != [] {
      DropIndexAbsent(s[1..], index, offset + 1);
    }
  }

  lemma {:induction false} DropIndexAt<T>(s: seq<T>, index: int, offset: int)
    requires offset <= index < offset + |s|
    ensures DropIndex(s, index, offset) == s[..index - offset] + s[index - offset + 1..]
  {
    if offset == index {
      DropIndexAbsent(s[1..], index, offset + 1);
    } else {
      DropIndexAt(s[1..], index, offset + 1);
      assert s[1..][..index - offset - 1] == s[1..index - offset];
      assert s[1..][index - offset..] == s[index - offset + 1..];
      assert [s[0]] + s[1..index - offset] == s[..index - offset];
    }
  }

  /** Removing a photo drops exactly that position and keeps the others in order; an index
      outside the list changes nothing. */
  lemma RemovePhotoExact<T>(s: seq<T>, index: int)
    ensures 0 <= index < |s| ==> DropIndex(s, index, 0) == s[..index] + s[index + 1..]
    ensures !(0 <= index < |s|) ==> DropIndex(s, index, 0) == s
  {
    if 0 <= index < |s| {
      DropIndexAt(s, index, 0);
    } else {
      DropIndexAbsent(s, index, 0);
    }
  }

  class ServiceForm {
    var selectedCategory: string
    var description: string
    var photos: seq<File>
    /** The `special_requests` list kept in local storage. */
    var stored: seq<Request>

    ghost predicate Valid()
      reads this
    {
      |photos| <= MaxPhotos
    }

    constructor (stored: seq<Request>)
      ensures Valid()
      ensures selectedCategory == "" && description == "" && photos == [] && this.stored == stored
    {
      selectedCategory, description, photos := "", "", [];
      this.stored := stored;
    }

    method SelectCategory(id: string)
      modifies this
      ensures selectedCategory == id
      ensures description == old(description) && photos == old(photos) && stored == old(stored)
    {
      selectedCategory := id;
    }

    method DescriptionChange(value: string)
      modifies this
      ensures description == value
      ensures selectedCategory == old(selectedCategory) && photos == old(photos) && stored == old(stored)
    {
      description := value;
    }

    /** Picking files: refused with an alert when the total would pass three, otherwise the
        files are added after the present ones. */
    method PhotoUpload(files: seq<File>) returns (alert: Option<string>)
      requires Valid()
      modifies this
      ensures Valid()
      ensures |old(photos)| + |files| > MaxPhotos ==> photos == old(photos) && alert == Some(MsgTooManyPhotos)
      ensures |old(photos)| + |files| <= MaxPhotos ==> photos == old(photos) + files && alert == None
      ensures selectedCategory == old(selectedCategory) && description == old(description)
      ensures stored == old(stored)
    {
      if |photos| + |files| > MaxPhotos {
        return Some(MsgTooManyPhotos);
      }
      photos := photos + files;
      alert := None;
    }

    method RemovePhoto(index: int)
      requires Valid()
      modifies this
      ensures Valid()
      ensures photos == DropIndex(old(photos), index, 0)
      ensures selectedCategory == old(selectedCategory) && description == old(description)
      ensures stored == old(stored)
    {
      RemovePhotoExact(photos, index);
      photos := DropIndex(photos, index, 0);
    }

    /** Submitting: with a category and a description the request (photo metadata, the
        user and the time) is appended to the stored list, the form is reset and closes;
        otherwise only an alert is shown. */
    method Submit(userInfo: Requester, timestamp: string) returns (alert: string, closes: bool)
      requires Valid()
      modifies this
      ensures Valid()
      ensures old(selectedCategory) == "" || old(description) == "" ==>
                alert == MsgIncomplete && !closes &&
                stored == old(stored) && selectedCategory == old(selectedCategory) &&
                description == old(description) && photos == old(photos)
      ensures old(selectedCategory) != "" && old(description) != "" ==>
                alert == MsgSubmitted && closes &&
                stored == old(stored) + [Request(old(selectedCategory), old(description),
                                                 Infos(old(photos)), userInfo, timestamp)] &&
                selectedCategory == "" && description == "" && photos == []
    {
      if selectedCategory == "" || description == "" {
        return MsgIncomplete, false;
      }
      var request := Request(selectedCategory, description, Infos(photos), userInfo, timestamp);
      stored := stored + [request];
      alert := MsgSubmitted;
      selectedCategory, description, photos := "", "", [];
      closes := true;
    }
  }
}
