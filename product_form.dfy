/**
 * The admin product dialog (frontend/src/components/admin/ProductForm.tsx):
 * the form state loaded from a product or blank, the tag and image list
 * edits, the upload loop that accumulates uploaded URLs, and the required
 * fields checked before the form is sent to the admin product endpoints.
 */
module ProductForm {
  import opened Wrappers
  import Seqs
  import Text
  import AdminProducts
  import Models

  /** The dialog's `formData`; after loading, `tags` is always a list. */
  datatype FormData = FormData(
    name: string, description: string, price: real, category: string, stock: int,
    images: seq<string>, tags: seq<string>, sku: string, weight: real, dimensions: string,
    brand: string, status: string, isImported: bool, shippingFee: real)

  /** The `tags` of a product as received: the server's comma-joined column, a list, or anything else. */
  datatype TagsField = TagString(s: string) | TagArray(tags: seq<string>) | TagOther

  /** A product handed to the dialog for editing: its fields, with the tags as received. */
  datatype EditedProduct = EditedProduct(form: FormData, tags: TagsField)

  function NotBlank(tag: string): bool
  {
    !Text.IsBlank(tag)
  }

  /** Tag normalisation on load: a string is split on `,` and blank pieces dropped, a list is kept, anything else is `[]`. */
  function NormalizeTags(t: TagsField): (r: seq<string>)
    ensures t.TagArray? ==> r == t.tags
    ensures t.TagOther? ==> r == []
    ensures t.TagString? ==> r == Seqs.Filter(Text.Split(t.s, ','), NotBlank)
    ensures t.TagString? ==> forall i :: 0 <= i < |r| ==> !Text.IsBlank(r[i]) && ',' !in r[i]
  {
    match t
    case TagString(s) => Seqs.Filter(Text.Split(s, ','), NotBlank)
    case TagArray(tags) => tags
    case TagOther => []
  }

  /**
   * Round trip with the server: for non-blank tags without a comma, splitting
   * the `tags` column the admin handler stores gives back the same list.
   */
  lemma TagsRoundTrip(tags: seq<string>)
    requires forall i :: 0 <= i < |tags| ==> !Text.IsBlank(tags[i]) && ',' !in tags[i]
    ensures NormalizeTags(TagString(AdminProducts.TagsColumn(tags))) == tags
  {
    if |tags| == 0 {
      assert Text.Split("", ',') == [""];
      assert Text.IsBlank("");
    } else {
      Text.SplitJoin(tags, ',');
      Seqs.FilterAll(tags, NotBlank);
    }
  }

  /** `generateSKU`: `SKU-` and the last eight digits of the clock in milliseconds. */
  function GenerateSku(nowMillis: nat): (r: string)
    ensures Text.StartsWith(r, "SKU-") && 5 <= |r| <= 12
    ensures Text.AllDigits(r[4..])
  {
    var d := Text.NatToDecimal(nowMillis);
    var tail := if |d| > 8 then d[|d| - 8..] else d;
    var r := "SKU-" + tail;
    assert r[4..] == tail;
    r
  }

  /** The form a new product starts from. */
  function BlankForm(nowMillis: nat): FormData
  {
    FormData("", "", 0.0, "", 0, [], [], GenerateSku(nowMillis), 0.0, "", "", Models.ProductActive, false, 0.0)
  }

  /** The load effect: the edited product's fields with normalised tags, or a blank form with a fresh SKU. */
  function LoadForm(product: Option<EditedProduct>, nowMillis: nat): (r: FormData)
    ensures product.Some? ==> r == product.value.form.(tags := NormalizeTags(product.value.tags))
    ensures product.None? ==> (r.name == "" && r.price == 0.0 && r.images == [] && r.tags == [] &&
      r.status == Models.ProductActive && Text.StartsWith(r.sku, "SKU-"))
  {
    match product
    case Some(p) => p.form.(tags := NormalizeTags(p.tags))
    case None => BlankForm(nowMillis)
  }

  /**
   * handleAddTag: the trimmed input is appended when it is non-blank and not
   * yet a tag, and the input is then cleared; otherwise nothing changes.
   * Returns the new form and the new input.
   */
  function AddTag(form: FormData, newTag: string): (r: (FormData, string))
    ensures r.0 == form.(tags := r.0.tags)
    ensures Text.Trim(newTag) != "" ==> Text.Trim(newTag) in r.0.tags
    ensures r.0.tags != form.tags ==> r.0.tags == form.tags + [Text.Trim(newTag)] && Text.Trim(newTag) !in form.tags && r.1 == ""
    ensures r.0.tags == form.tags ==> r.1 == newTag
  {
    var t := Text.Trim(newTag);
    if t != "" && t !in form.tags then (form.(tags := form.tags + [t]), "") else (form, newTag)
  }

  /** Adding a tag keeps the tag list duplicate-free, and adding the same tag twice adds it once. */
  lemma AddTagKeepsDistinct(form: FormData, newTag: string)
    requires Seqs.Distinct(form.tags)
    ensures Seqs.Distinct(AddTag(form, newTag).0.tags)
    ensures AddTag(AddTag(form, newTag).0, newTag).0 == AddTag(form, newTag).0
  {
    var t := Text.Trim(newTag);
    if t != "" && t !in form.tags {
      var tags := form.tags + [t];
      forall i, j | 0 <= i < j < |tags| ensures tags[i] != tags[j] {
        if j == |form.tags| {
          assert tags[i] == form.tags[i];
        }
      }
      assert t in tags;
    }
  }

  function Differs(tag: string): string -> bool
  {
    (t: string) => t != tag
  }

  /** handleRemoveTag: every tag equal to the removed one is dropped, the rest kept in order. */
  function RemoveTag(form: FormData, tag: string): (r: FormData)
    ensures r == form.(tags := Seqs.Filter(form.tags, Differs(tag)))
    ensures tag !in r.tags
    ensures forall i :: 0 <= i < |form.tags| && form.tags[i] != tag ==> form.tags[i] in r.tags
  {
    var r := form.(tags := Seqs.Filter(form.tags, Differs(tag)));
    assert tag !in r.tags by {
      forall i | 0 <= i < |r.tags| ensures r.tags[i] != tag {
        assert Differs(tag)(r.tags[i]);
      }
    }
    r
  }

  /** Removing a tag just added gives the tag list back. */
  lemma {:induction false} RemoveAddedTag(form: FormData, newTag: string)
    requires Text.Trim(newTag) != "" && Text.Trim(newTag) !in form.tags
    ensures RemoveTag(AddTag(form, newTag).0, Text.Trim(newTag)).tags == form.tags
  {
    var t := Text.Trim(newTag);
    Seqs.FilterAppend(form.tags, [t], Differs(t));
    Seqs.FilterAll(form.tags, Differs(t));
    assert Seqs.Filter([t], Differs(t)) == [];
  }

  /** handleRemoveImage: `filter((_, i) => i !== index)`. */
  function RemoveImage(form: FormData, index: int): (r: FormData)
    ensures 0 <= index < |form.images| ==> r == form.(images := form.images[..index] + form.images[index + 1..])
    ensures !(0 <= index < |form.images|) ==> r == form
  {
    if 0 <= index < |form.images| then form.(images := form.images[..index] + form.images[index + 1..]) else form
  }

  /** Removing position `index` shifts the later images down by one and keeps the earlier ones. */
  lemma RemoveImageShifts(form: FormData, index: int)
    requires 0 <= index < |form.images|
    ensures var r := RemoveImage(form, index).images;
      |r| == |form.images| - 1 &&
      (forall i :: 0 <= i < index ==> r[i] == form.images[i]) &&
      (forall i :: index <= i < |r| ==> r[i] == form.images[i + 1])
  {
  }

  /** handleAddImageUrl: the trimmed URL is appended when non-blank and not yet listed, and the input cleared. */
  function AddImageUrl(form: FormData, imageUrl: string): (r: (FormData, string))
    ensures r.0 == form.(images := r.0.images)
    ensures Text.Trim(imageUrl) != "" ==> Text.Trim(imageUrl) in r.0.images
    ensures r.0.images != form.images ==>
      r.0.images == form.images + [Text.Trim(imageUrl)] && Text.Trim(imageUrl) !in form.images && r.1 == ""
    ensures r.0.images == form.images ==> r.1 == imageUrl
  {
    var u := Text.Trim(imageUrl);
    if u != "" && u !in form.images then (form.(images := form.images + [u]), "") else (form, imageUrl)
  }

  /** Adding a URL keeps a duplicate-free image list duplicate-free. */
  lemma AddImageUrlKeepsDistinct(form: FormData, imageUrl: string)
    requires Seqs.Distinct(form.images)
    ensures Seqs.Distinct(AddImageUrl(form, imageUrl).0.images)
  {
    var u := Text.Trim(imageUrl);
    if u != "" && u !in form.images {
      var images := form.images + [u];
      forall i, j | 0 <= i < j < |images| ensures images[i] != images[j] {
        if j == |form.images| {
          assert images[i] == form.images[i];
        }
      }
    }
  }

  /** The outcome of one upload request: a reply with `imageUrl`, a refused reply, or an exception. */
  datatype UploadReply = Uploaded(imageUrl: string) | Refused | UploadThrows

  predicate Throws(reply: UploadReply)
  {
    reply.UploadThrows?
  }

  /** The URLs the loop collects, in upload order; refused uploads are skipped. */
  function UploadedUrls(replies: seq<UploadReply>): (r: seq<string>)
    ensures |r| <= |replies|
  {
    if |replies| == 0 then []
    else
      var prior := UploadedUrls(replies[..|replies| - 1]);
      match replies[|replies| - 1]
      case Uploaded(url) => prior + [url]
      case _ => prior
  }

  function IsUploaded(reply: UploadReply): bool
  {
    reply.Uploaded?
  }

  /** One URL is collected per successful upload. */
  lemma {:induction false} UploadedUrlsCount(replies: seq<UploadReply>)
    ensures |UploadedUrls(replies)| == Seqs.Count(replies, IsUploaded)
    decreases |replies|
  {
    if |replies| > 0 {
      var n := |replies| - 1;
      assert replies == replies[..n] + [replies[n]];
      Seqs.CountAppend(replies[..n], [replies[n]], IsUploaded);
      UploadedUrlsCount(replies[..n]);
    }
  }

  /**
   * handleImageUpload: with no file list nothing happens. Otherwise each
   * file is uploaded in turn; an exception ends the loop and leaves the
   * images as they were, else the collected URLs are appended after the
   * existing images. `uploaded` is the count the success message shows.
   */
  method UploadImages(form: FormData, files: Option<seq<UploadReply>>) returns (r: FormData, uploaded: nat)
    ensures files.None? ==> r == form && uploaded == 0
    ensures files.Some? && Seqs.Count(files.value, Throws) > 0 ==> r == form
    ensures files.Some? && Seqs.Count(files.value, Throws) == 0 ==>
      r == form.(images := form.images + UploadedUrls(files.value)) &&
      uploaded == Seqs.Count(files.value, IsUploaded)
  {
    r, uploaded := form, 0;
    if files.None? {
      return;
    }
    var replies := files.value;
    var collected: seq<string> := [];
    for i := 0 to |replies|
      invariant collected == UploadedUrls(replies[..i])
      invariant Seqs.Count(replies[..i], Throws) == 0
    {
      assert replies[..i + 1] == replies[..i] + [replies[i]];
      Seqs.CountAppend(replies[..i], [replies[i]], Throws);
      match replies[i]
      case Uploaded(url) =>
        collected := collected + [url];
      case Refused =>
      case UploadThrows =>
        ThrowCounted(replies, i);
        return;
    }
    assert replies[..|replies|] == replies;
    UploadedUrlsCount(replies);
    r, uploaded := form.(images := form.images + collected), |collected|;
  }

  /** A throwing upload at position `i` makes the throw count of the whole list positive. */
  lemma ThrowCounted(replies: seq<UploadReply>, i: nat)
    requires i < |replies| && replies[i].UploadThrows?
    ensures Seqs.Count(replies, Throws) > 0
  {
  }

  /** The request handleSubmit sends: an update of the edited product or a create. */
  datatype SaveRequest = Put(productId: int, body: AdminProducts.ProductRequest) | Post(body: AdminProducts.ProductRequest)

  /** The JSON body: the form's fields as the admin request shape. */
  function ToRequest(form: FormData): (req: AdminProducts.ProductRequest)
    ensures req.name == form.name && req.price == form.price && req.tags == form.tags && req.images == form.images
    ensures req.sku == form.sku && req.stock == form.stock && req.status == form.status
  {
    AdminProducts.ProductRequest(form.name, form.description, form.price, form.category, form.stock,
      form.images, form.tags, form.sku, form.weight, form.dimensions, form.brand, form.status,
      form.isImported, form.shippingFee)
  }

  predicate RequiredFilled(form: FormData)
  {
    form.name != "" && form.description != "" && form.category != "" && form.price > 0.0
  }

  /** handleSubmit: nothing is sent unless name, description and category are filled and the price is positive. */
  function Submit(form: FormData, editing: Option<int>): (r: Option<SaveRequest>)
    ensures r.Some? <==> RequiredFilled(form)
    ensures r.Some? && editing.Some? ==> r.value == Put(editing.value, ToRequest(form))
    ensures r.Some? && editing.None? ==> r.value == Post(ToRequest(form))
  {
    if !RequiredFilled(form) then None
    else if editing.Some? then Some(Put(editing.value, ToRequest(form)))
    else Some(Post(ToRequest(form)))
  }

  /**
   * The client check is weaker than the server's binding rules: a sent form
   * passes them exactly when it also has a SKU, a non-negative stock and
   * shipping fee, and one of the three statuses.
   */
  lemma SubmittedFormOnServer(form: FormData, editing: Option<int>)
    requires Submit(form, editing).Some?
    ensures AdminProducts.RequestValid(ToRequest(form)) <==>
      (form.sku != "" && form.stock >= 0 && form.shippingFee >= 0.0 &&
       form.status in {Models.ProductActive, AdminProducts.StatusInactive, AdminProducts.StatusDraft})
  {
  }

  /** A blank form, once its required fields are filled, the client sends and the server accepts. */
  lemma {:induction false} FilledBlankFormAccepted(nowMillis: nat, name: string, description: string, category: string, price: real)
    requires name != "" && description != "" && category != "" && price > 0.0
    ensures var form := BlankForm(nowMillis).(name := name, description := description, category := category, price := price);
      Submit(form, None).Some? && AdminProducts.RequestValid(ToRequest(form))
  {
    var sku := GenerateSku(nowMillis);
    assert sku[..4] == "SKU-";
  }
}
