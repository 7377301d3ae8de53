/** The seller's product upload form: six text fields, the chosen image files
    with one preview URL each, and the multipart body built on submit. */
module ProductUploadForm {
  import opened JsSemantics

  /** The six text keys of `formData`, in the order they are declared. */
  datatype TextField = Name | Description | OriginalPrice | SalePrice | Category | Stock

  /** The `name` attribute of each text input, which is also its key. */
  function KeyName(f: TextField): (key: string)
    ensures key != "images"
  {
    match f
    case Name => "name"
    case Description => "description"
    case OriginalPrice => "originalPrice"
    case SalePrice => "salePrice"
    case Category => "category"
    case Stock => "stock"
  }

  /** Different fields have different keys, so a submitted key names one
      field. */
  lemma KeyNameInjective(f: TextField, g: TextField)
    requires KeyName(f) == KeyName(g)
    ensures f == g
  {
    match f
    case Name => assert KeyName(g)[0] == 'n';
    case Description => assert KeyName(g)[0] == 'd';
    case OriginalPrice => assert KeyName(g)[0] == 'o';
    case SalePrice => assert KeyName(g)[0] == 's' && |KeyName(g)| == 9;
    case Category => assert KeyName(g)[0] == 'c';
    case Stock => assert KeyName(g)[0] == 's' && |KeyName(g)| == 5;
  }

  /** A chosen file; only its identity matters here. */
  datatype ImageFile = ImageFile(name: string, size: nat)

  /** A key of `formData`. */
  datatype FormKey = TextKey(field: TextField) | ImagesKey

  /** `Object.keys(formData)`: the keys in insertion order, `images` last.
      Spreading `prev` into the new object keeps this order. */
  const FormKeys: seq<FormKey> :=
    [TextKey(Name), TextKey(Description), TextKey(OriginalPrice), TextKey(SalePrice),
     TextKey(Category), TextKey(Stock), ImagesKey]

  /** One `submitData.append(key, value)`. */
  datatype FormValue = Text(text: string) | Upload(file: ImageFile)
  datatype Entry = Entry(key: string, value: FormValue)

  /** The appends for the images: one `images` entry per file, in order. */
  function ImageEntries(images: seq<ImageFile>): (entries: seq<Entry>)
    ensures |entries| == |images|
  {
    if |images| == 0 then []
    else ImageEntries(images[..|images| - 1]) + [Entry("images", Upload(images[|images| - 1]))]
  }

  lemma {:induction false} ImageEntriesAt(images: seq<ImageFile>, j: int)
    requires 0 <= j < |images|
    ensures ImageEntries(images)[j] == Entry("images", Upload(images[j]))
  {
    if j < |images| - 1 {
      ImageEntriesAt(images[..|images| - 1], j);
    }
  }

  /** The appends for one key. */
  function KeyEntries(key: FormKey, text: map<TextField, string>, images: seq<ImageFile>): seq<Entry>
    requires key.TextKey? ==> key.field in text
  {
    match key
    case TextKey(f) => [Entry(KeyName(f), Text(text[f]))]
    case ImagesKey => ImageEntries(images)
  }

  /** The appends for a list of keys, in the list's order. */
  function Submission(keys: seq<FormKey>, text: map<TextField, string>, images: seq<ImageFile>): seq<Entry>
    requires forall f :: f in text
  {
    if |keys| == 0 then []
    else Submission(keys[..|keys| - 1], text, images) + KeyEntries(keys[|keys| - 1], text, images)
  }

  /** For keys that are all text keys, entry i is key i with its text. */
  lemma {:induction false} TextSubmissionAt(keys: seq<FormKey>, text: map<TextField, string>, images: seq<ImageFile>)
    requires forall f :: f in text
    requires forall i :: 0 <= i < |keys| ==> keys[i].TextKey?
    ensures |Submission(keys, text, images)| == |keys|
    ensures forall i :: 0 <= i < |keys| ==>
      Submission(keys, text, images)[i] == Entry(KeyName(keys[i].field), Text(text[keys[i].field]))
  {
    if |keys| > 0 {
      TextSubmissionAt(keys[..|keys| - 1], text, images);
    }
  }

  /** The body `handleSubmit` builds: the six text fields in declaration
      order, each with its current text, then one `images` entry per chosen
      file in the order they were chosen. */
  lemma SubmissionShape(text: map<TextField, string>, images: seq<ImageFile>)
    requires forall f :: f in text
    ensures |Submission(FormKeys, text, images)| == 6 + |images|
    ensures forall i :: 0 <= i < 6 ==>
      Submission(FormKeys, text, images)[i] == Entry(KeyName(FormKeys[i].field), Text(text[FormKeys[i].field]))
    ensures forall j :: 0 <= j < |images| ==>
      Submission(FormKeys, text, images)[6 + j] == Entry("images", Upload(images[j]))
  {
    var prefix := FormKeys[..6];
    assert FormKeys[..7] == FormKeys;
    TextSubmissionAt(prefix, text, images);
    assert Submission(FormKeys, text, images) == Submission(prefix, text, images) + ImageEntries(images);
    forall j | 0 <= j < |images|
      ensures Submission(FormKeys, text, images)[6 + j] == Entry("images", Upload(images[j]))
    {
      ImageEntriesAt(images, j);
    }
  }

  /** Cutting position k out of the files and out of the previews keeps
      every remaining file with its own preview: pair i afterwards is pair
      i before it, or pair i + 1 from position k on. */
  lemma RemovalKeepsPairs(images: seq<ImageFile>, previews: seq<string>, k: int, i: int)
    requires |images| == |previews|
    requires 0 <= i < |WithoutIndex(images, k)|
    ensures |WithoutIndex(images, k)| == |WithoutIndex(previews, k)|
    ensures var j := if 0 <= k <= i then i + 1 else i;
      0 <= j < |images|
      && WithoutIndex(images, k)[i] == images[j]
      && WithoutIndex(previews, k)[i] == previews[j]
  {
    WithoutIndexSpec(images, k);
    WithoutIndexSpec(previews, k);
  }

  /** `formData.images.forEach(...)`: appends one `images` entry per file,
      in order, to the entries built so far. */
  method AppendImageEntries(before: seq<Entry>, images: seq<ImageFile>) returns (entries: seq<Entry>)
    ensures entries == before + ImageEntries(images)
  {
    entries := before;
    var j := 0;
    while j < |images|
      invariant 0 <= j <= |images|
      invariant entries == before + ImageEntries(images[..j])
    {
      assert images[..j + 1][..j] == images[..j];
      entries := entries + [Entry("images", Upload(images[j]))];
      j := j + 1;
    }
    assert images[..j] == images;
  }

  /** The form's state: `formData` (its text part and its `images`) and
      `previewImages`. */
  class UploadForm {
    var text: map<TextField, string>
    var images: seq<ImageFile>
    var previewImages: seq<string>

    /** Every text key is present, and there is one preview per file. */
    ghost predicate Valid()
      reads this
    {
      (forall f :: f in text) && |images| == |previewImages|
    }

    /** Every text field empty, no files, no previews. */
    constructor ()
      ensures Valid()
      ensures forall f :: text[f] == ""
      ensures images == [] && previewImages == []
    {
      var empty := map[Name := "", Description := "", OriginalPrice := "", SalePrice := "",
                       Category := "", Stock := ""];
      forall f: TextField ensures f in empty && empty[f] == "" {
        match f
        case Name =>
        case Description =>
        case OriginalPrice =>
        case SalePrice =>
        case Category =>
        case Stock =>
      }
      text := empty;
      images, previewImages := [], [];
    }

    /** `handleInputChange`: the input named `field` now holds `value`. */
    method HandleInputChange(field: TextField, value: string)
      requires Valid()
      modifies this
      ensures Valid()
      ensures text == old(text)[field := value]
      ensures images == old(images) && previewImages == old(previewImages)
    {
      text := text[field := value];
    }

    /** `handleImageChange`: the chosen `files` are appended, and so are
        their object URLs `urls`, one per file in the same order. */
    method HandleImageChange(files: seq<ImageFile>, urls: seq<string>)
      requires Valid()
      requires |urls| == |files|
      modifies this
      ensures Valid()
      ensures images == old(images) + files && previewImages == old(previewImages) + urls
      ensures text == old(text)
    {
      images := images + files;
      previewImages := previewImages + urls;
    }

    /** `removeImage(index)`: both lists drop the element at `index`; an
        index out of range drops nothing. */
    method RemoveImage(index: int)
      requires Valid()
      modifies this
      ensures Valid()
      ensures images == WithoutIndex(old(images), index)
      ensures previewImages == WithoutIndex(old(previewImages), index)
      ensures text == old(text)
    {
      WithoutIndexSpec(images, index);
      WithoutIndexSpec(previewImages, index);
      images := WithoutIndex(images, index);
      previewImages := WithoutIndex(previewImages, index);
    }

    /** `handleSubmit`: walks the keys of `formData` and appends each text
        field, or each file for `images`, to the multipart body. */
    method Submit() returns (entries: seq<Entry>)
      requires Valid()
      ensures entries == Submission(FormKeys, text, images)
      ensures |entries| == 6 + |images|
    {
      entries := [];
      var i := 0;
      while i < |FormKeys|
        invariant 0 <= i <= |FormKeys|
        invariant entries == Submission(FormKeys[..i], text, images)
      {
        var key := FormKeys[i];
        assert FormKeys[..i + 1][..i] == FormKeys[..i];
        if key == ImagesKey {
          entries := AppendImageEntries(entries, images);
        } else {
          entries := entries + [Entry(KeyName(key.field), Text(text[key.field]))];
        }
        i := i + 1;
      }
      assert FormKeys[..i] == FormKeys;
      SubmissionShape(text, images);
    }
  }
}
