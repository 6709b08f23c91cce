/** The transaction detail page: the state its two fetches fill in and the
    chain of conditions that picks what it shows. */
module TransactionDetail {
  import opened Json
  import opened Api

  /** JavaScript's `s.includes(t)`. */
  predicate Includes(s: string, t: string)
    ensures |t| == 0 ==> Includes(s, t)
    ensures Includes(s, t) ==> |t| <= |s|
    decreases |s|
  {
    |t| <= |s| && (s[..|t|] == t || Includes(s[1..], t))
  }

  /** `t` occurs in `s` at position `i`. */
  predicate OccursAt(s: string, t: string, i: nat) {
    i + |t| <= |s| && s[i..i + |t|] == t
  }

  /** `Includes` holds exactly when `t` occurs in `s` at some position. */
  lemma {:induction false} IncludesAt(s: string, t: string)
    ensures Includes(s, t) <==> exists i: nat :: OccursAt(s, t, i)
    decreases |s|
  {
    if |t| <= |s| {
      if s[..|t|] == t {
        assert OccursAt(s, t, 0);
      } else {
        // here `t` is not empty, so neither is `s`
        IncludesAt(s[1..], t);
        if Includes(s[1..], t) {
          var i: nat :| OccursAt(s[1..], t, i);
          assert i + 1 + |t| <= |s|;
          assert s[i + 1..i + 1 + |t|] == s[1..][i..i + |t|];
          assert OccursAt(s, t, i + 1);
        } else {
          forall i: nat | OccursAt(s, t, i) && i > 0 ensures false {
            var j: nat := i - 1;
            assert j + |t| <= |s[1..]|;
            assert s[1..][j..j + |t|] == s[i..i + |t|];
            assert OccursAt(s[1..], t, j);
          }
        }
      }
    } else {
      forall i: nat | OccursAt(s, t, i) ensures false {
      }
    }
  }

  /** The truthiness of `receiptUrl`: set and not empty. */
  predicate IsSet(url: Option<string>)
    ensures IsSet(url) <==> url.Some? && !IsFalsy(Str(url.value))
  {
    url.Some? && url.value != ""
  }

  /** The receipt preview area. */
  datatype Preview =
    | PdfPreview(url: string)
    | ImagePreview(src: Option<string>)
    | InfoAlert(message: string)
    | NoPreviewWarning

  /** What the page renders. */
  datatype View =
    | Spinner
    | ErrorView(message: string)
    | Details(preview: Preview, downloadEnabled: bool)

  /** The render chain: spinner while loading, then the error view, then the
      details with the receipt preview chosen by the nested conditional and
      the download button enabled when there is a receipt URL. */
  function SelectView(loading: bool, error: string, receiptUrl: Option<string>,
                      receiptType: string, receiptError: string): (v: View)
    ensures loading ==> v == Spinner
    ensures !loading && error != "" ==> v == ErrorView(error)
    ensures v.Details? <==> !loading && error == ""
    ensures v.Details? ==> (v.downloadEnabled <==> IsSet(receiptUrl))
    ensures v.Details? ==>
      (v.preview.PdfPreview? <==> IsSet(receiptUrl) && Includes(receiptType, "pdf"))
    ensures v.Details? ==>
      (v.preview.ImagePreview? <==> !(IsSet(receiptUrl) && Includes(receiptType, "pdf")) && Includes(receiptType, "image"))
    ensures v.Details? && v.preview.ImagePreview? ==> v.preview.src == receiptUrl
    ensures v.Details? ==>
      (v.preview.InfoAlert? <==>
        !(IsSet(receiptUrl) && Includes(receiptType, "pdf")) && !Includes(receiptType, "image") && receiptError != "")
    ensures v.Details? && v.preview.InfoAlert? ==> v.preview.message == receiptError
  {
    if loading then Spinner
    else if error != "" then ErrorView(error)
    else
      var preview :=
        if IsSet(receiptUrl) && Includes(receiptType, "pdf") then PdfPreview(receiptUrl.value)
        else if Includes(receiptType, "image") then ImagePreview(receiptUrl)
        else if receiptError != "" then InfoAlert(receiptError)
        else NoPreviewWarning;
      Details(preview, IsSet(receiptUrl))
  }

  /** The image branch does not look at the URL: an image content type with
      no URL still selects the image preview, with no source. */
  lemma ImagePreviewWithoutUrl()
    ensures SelectView(false, "", None, "image/png", "No receipt found for this transaction.")
      == Details(ImagePreview(None), false)
  {
    assert "image/png"[..5] == "image";
  }

  /** A PDF wins over an image when the content type mentions both. */
  lemma PdfBeforeImage(url: string, receiptType: string, receiptError: string)
    requires url != ""
    requires Includes(receiptType, "pdf") && Includes(receiptType, "image")
    ensures SelectView(false, "", Some(url), receiptType, receiptError) == Details(PdfPreview(url), true)
  {
  }

  /** The blob the receipt fetch produced: its content type and the object URL made for it. */
  datatype Receipt = Receipt(contentType: string, objectUrl: string)

  const LoadFailed := "Failed to load transaction."
  const NoReceipt := "No receipt found for this transaction."

  class DetailPage {
    var transaction: Option<Row>
    var loading: bool
    var error: string
    var receiptUrl: Option<string>
    var receiptType: string
    var receiptError: string

    /** Loading shows that the transaction fetch has not settled; once it
        has, it left either a transaction or an error. */
    ghost predicate Valid()
      reads this
    {
      && (loading ==> transaction.None? && error == "")
      && (!loading ==> transaction.Some? || error != "")
    }

    constructor ()
      ensures Valid()
      ensures transaction == None && loading && error == ""
      ensures receiptUrl == None && receiptType == "" && receiptError == ""
    {
      transaction, loading, error := None, true, "";
      receiptUrl, receiptType, receiptError := None, "", "";
    }

    /** What the page renders now. When it shows the details, the
        transaction they read is there. */
    function CurrentView(): (v: View)
      reads this
      requires Valid()
      ensures v.Details? ==> transaction.Some?
      ensures v == Spinner <==> loading
    {
      SelectView(loading, error, receiptUrl, receiptType, receiptError)
    }

    /** `fetchTransaction` settling: a success stores the transaction, a
        failure the error message, and either way loading ends. */
    method FinishTransactionFetch(response: Response<Row>)
      requires Valid()
      modifies this`transaction, this`error, this`loading
      ensures Valid() && !loading
      ensures response.Ok? ==> transaction == Some(response.data) && error == old(error)
      ensures response.Failed? ==> transaction == old(transaction) && error == LoadFailed
      ensures CurrentView() != Spinner
    {
      match response {
        case Ok(row) =>
          transaction := Some(row);
        case Failed(_, _) =>
          error := LoadFailed;
      }
      loading := false;
    }

    /** `fetchReceipt` settling: a success stores the content type and the
        object URL, a failure the informational message. */
    method FinishReceiptFetch(response: Response<Receipt>)
      requires Valid()
      modifies this`receiptType, this`receiptUrl, this`receiptError
      ensures Valid()
      ensures response.Ok? ==>
        receiptType == response.data.contentType && receiptUrl == Some(response.data.objectUrl) &&
        receiptError == old(receiptError)
      ensures response.Failed? ==>
        receiptType == old(receiptType) && receiptUrl == old(receiptUrl) && receiptError == NoReceipt
    {
      match response
      case Ok(receipt) =>
        receiptType := receipt.contentType;
        receiptUrl := Some(receipt.objectUrl);
      case Failed(_, _) =>
        receiptError := NoReceipt;
    }
  }
}
