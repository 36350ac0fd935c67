/**
 * The seller's product registration form: per-field validation into an
 * errors dictionary, the pairing of image metadata with the chosen files,
 * the request payload, and the reset after an accepted registration.
 */
module ProductRegistration {
  import opened Util

  // ---------------------------------------------------------------------
  // Numbers typed into the price and stock fields

  /** The value of a run of decimal digits. */
  function DigitsValue(s: string): (n: nat)
    requires AllDigits(s)
    ensures s == [] ==> n == 0
    decreases |s|
  {
    if s == [] then 0
    else 10 * DigitsValue(s[..|s| - 1]) + (s[|s| - 1] as int - '0' as int)
  }

  /**
   * `Number(text)` for an optionally negative run of digits; anything else is
   * NaN (`None`). The empty text never reaches it: `!text` is checked first.
   */
  function NumberOf(text: string): (n: Option<int>)
    ensures text != "" && AllDigits(text) ==> n == Some(DigitsValue(text))
    ensures n.Some? ==> text != ""
    ensures n.Some? && n.value < 0 ==> text[0] == '-'
  {
    if text != "" && AllDigits(text) then Some(DigitsValue(text))
    else if |text| >= 2 && text[0] == '-' && AllDigits(text[1..]) then
      var v: int := 0 - DigitsValue(text[1..]) as int;
      Some(v)
    else None
  }

  /** The longest run of decimal digits at the start of `s`. */
  function LeadingDigits(s: string): (d: string)
    ensures AllDigits(d)
    ensures AllDigits(s) ==> d == s
    decreases |s|
  {
    if s == [] || !('0' <= s[0] <= '9') then []
    else
      var rest := LeadingDigits(s[1..]);
      assert AllDigits(s) ==> AllDigits(s[1..]);
      [s[0]] + rest
  }

  /** `trimStart()`: the text from its first character that is not white space. */
  function TrimStart(s: string): (t: string)
    ensures s == [] || !IsSpace(s[0]) ==> t == s
    decreases |s|
  {
    if s != [] && IsSpace(s[0]) then TrimStart(s[1..]) else s
  }

  /**
   * `parseInt(text)`: white space, an optional sign, then the digits up to
   * the first other character; NaN (`None`) when there are no digits.
   */
  function ParseIntOf(text: string): (n: Option<int>)
  {
    var t := TrimStart(text);
    var signed := t != [] && (t[0] == '-' || t[0] == '+');
    var d := LeadingDigits(if signed then t[1..] else t);
    if d == [] then None
    else if signed && t[0] == '-' then
      var v: int := 0 - DigitsValue(d) as int;
      Some(v)
    else Some(DigitsValue(d))
  }

  /** On every text `Number` reads as a number, `parseInt` gives the same value. */
  lemma ParseIntAgreesWithNumber(text: string)
    requires NumberOf(text).Some?
    ensures ParseIntOf(text) == NumberOf(text)
  {
    assert !IsSpace(text[0]);
    if !AllDigits(text) {
      assert text[0] == '-' && AllDigits(text[1..]);
    }
  }

  /**
   * A decimal price such as '0.5', which a number input lets through, passes
   * the `<= 0` check (JavaScript reads 0.5, this model NaN; neither is
   * rejected) but `parseInt` sends it as 0, the very price the check rejects.
   */
  lemma ParseIntReadsPrefix()
    ensures !PriceRejected("0.5") && ParseIntOf("0.5") == Some(0)
  {
    var text := "0.5";
    assert !AllDigits(text) by { assert text[1] == '.'; }
    assert text[0] == '0';
    assert TrimStart(text) == text;
    assert LeadingDigits(text[1..]) == [] by { assert text[1..][0] == '.'; }
    assert LeadingDigits(text) == [text[0]];
    assert DigitsValue("0") == 0 by { assert "0"[..0] == ""; }
  }

  // ---------------------------------------------------------------------
  // validateForm

  const NameRequired := "상품명을 입력해주세요."
  const DescriptionRequired := "상품 설명을 입력해주세요."
  const CategoryRequired := "카테고리를 선택해주세요."
  const PriceInvalid := "올바른 가격을 입력해주세요."
  const StockInvalid := "올바른 재고를 입력해주세요."
  const ImagesRequired := "최소 1개의 상품 사진을 업로드해주세요."
  const AltRequired := "모든 사진에 대체 텍스트를 입력해주세요."

  /** The form's inputs, named as in the form data. */
  datatype FieldName = ProductName | ProductDescription | CategoryId | ProductPrice | ProductStock

  /** The keys of the errors dictionary: one per input, and two for the images. */
  datatype ErrorKey = OnField(field: FieldName) | Images | ImageAlt

  /** The form fields, keyed by input; a key never written reads as ''. */
  function Field(formData: map<FieldName, string>, name: FieldName): string
  {
    if name in formData then formData[name] else ""
  }

  /** `!text || Number(text) <= 0`: NaN compares false, so a non-number passes. */
  predicate PriceRejected(text: string)
  {
    text == "" || (NumberOf(text).Some? && NumberOf(text).value <= 0)
  }

  /** `!text || Number(text) < 0`: the text '0' is non-empty, so a stock of zero passes. */
  predicate StockRejected(text: string)
  {
    text == "" || (NumberOf(text).Some? && NumberOf(text).value < 0)
  }

  datatype ImageMeta = ImageMeta(originalFileName: string, altText: string, sequence: int, isNew: bool, imageId: Option<string>)

  /** An image counted as a product photo: sequence below 10. */
  predicate IsProductPhoto(img: ImageMeta)
  {
    img.sequence < 10
  }

  predicate HasProductPhoto(images: seq<ImageMeta>)
  {
    exists i :: 0 <= i < |images| && IsProductPhoto(images[i])
  }

  /** The alt-text filter: `!img.altText.trim() && img.sequence < 10`. */
  predicate MissingAlt(img: ImageMeta)
  {
    Blank(img.altText) && IsProductPhoto(img)
  }

  predicate PhotoWithoutAlt(images: seq<ImageMeta>)
  {
    exists i :: 0 <= i < |images| && IsProductPhoto(images[i]) && Blank(images[i].altText)
  }

  /** The message each rule records under its key. */
  function MessageFor(key: ErrorKey): string
  {
    match key
    case OnField(ProductName) => NameRequired
    case OnField(ProductDescription) => DescriptionRequired
    case OnField(CategoryId) => CategoryRequired
    case OnField(ProductPrice) => PriceInvalid
    case OnField(ProductStock) => StockInvalid
    case Images => ImagesRequired
    case ImageAlt => AltRequired
  }

  /** Whether the rule behind `key` fails. */
  predicate Fails(formData: map<FieldName, string>, images: seq<ImageMeta>, key: ErrorKey)
  {
    match key
    case OnField(ProductName) => Blank(Field(formData, ProductName))
    case OnField(ProductDescription) => Blank(Field(formData, ProductDescription))
    case OnField(CategoryId) => Field(formData, CategoryId) == ""
    case OnField(ProductPrice) => PriceRejected(Field(formData, ProductPrice))
    case OnField(ProductStock) => StockRejected(Field(formData, ProductStock))
    case Images => !HasProductPhoto(images)
    case ImageAlt => PhotoWithoutAlt(images)
  }

  /** The errors dictionary `validateForm` builds: each failing rule's message under its key, and nothing else. */
  function FormErrors(formData: map<FieldName, string>, images: seq<ImageMeta>): (errors: map<ErrorKey, string>)
    ensures forall key :: key in errors <==> Fails(formData, images, key)
    ensures forall key :: key in errors ==> errors[key] == MessageFor(key)
  {
    map key: ErrorKey | key in AllKeys && Fails(formData, images, key) :: MessageFor(key)
  }

  const AllKeys: set<ErrorKey> := {OnField(ProductName), OnField(ProductDescription), OnField(CategoryId),
                                   OnField(ProductPrice), OnField(ProductStock), Images, ImageAlt}

  /** The seven messages are seven different texts, so a message names its rule. */
  lemma MessagesDistinct(a: ErrorKey, b: ErrorKey)
    requires a != b
    ensures MessageFor(a) != MessageFor(b)
  {
  }

  /** The form is accepted exactly when every rule passes. */
  lemma FormAcceptedIff(formData: map<FieldName, string>, images: seq<ImageMeta>)
    ensures FormErrors(formData, images) == map[] <==>
      !Blank(Field(formData, ProductName)) && !Blank(Field(formData, ProductDescription)) &&
      Field(formData, CategoryId) != "" && !PriceRejected(Field(formData, ProductPrice)) &&
      !StockRejected(Field(formData, ProductStock)) && HasProductPhoto(images) && !PhotoWithoutAlt(images)
  {
    var e := FormErrors(formData, images);
    if e == map[] {
      forall key: ErrorKey
        ensures !Fails(formData, images, key)
      {
        assert key !in e;
      }
      assert !Fails(formData, images, OnField(ProductName));
      assert !Fails(formData, images, OnField(ProductDescription));
      assert !Fails(formData, images, OnField(CategoryId));
      assert !Fails(formData, images, OnField(ProductPrice));
      assert !Fails(formData, images, OnField(ProductStock));
      assert !Fails(formData, images, Images);
      assert !Fails(formData, images, ImageAlt);
    } else {
      var key :| key in e;
      assert Fails(formData, images, key);
    }
  }

  /** Images with sequence 10 or more are never checked for alt text, and never count as the required photo. */
  lemma LateImagesExempt(images: seq<ImageMeta>, late: ImageMeta, formData: map<FieldName, string>)
    requires late.sequence >= 10
    ensures FormErrors(formData, images + [late]) == FormErrors(formData, images)
  {
    var both := images + [late];
    assert HasProductPhoto(both) <==> HasProductPhoto(images) by {
      if HasProductPhoto(both) {
        var i :| 0 <= i < |both| && IsProductPhoto(both[i]);
        assert i < |images| && images[i] == both[i];
      }
      if HasProductPhoto(images) {
        var i :| 0 <= i < |images| && IsProductPhoto(images[i]);
        assert both[i] == images[i];
      }
    }
    assert PhotoWithoutAlt(both) <==> PhotoWithoutAlt(images) by {
      if PhotoWithoutAlt(both) {
        var i :| 0 <= i < |both| && IsProductPhoto(both[i]) && Blank(both[i].altText);
        assert i < |images| && images[i] == both[i];
      }
      if PhotoWithoutAlt(images) {
        var i :| 0 <= i < |images| && IsProductPhoto(images[i]) && Blank(images[i].altText);
        assert both[i] == images[i];
      }
    }
  }

  /** A price this model reads as NaN (any text that is not an optionally negative run of digits) raises no price error. */
  lemma NonNumericPriceAccepted(text: string)
    requires text != "" && text[0] != '-' && !AllDigits(text)
    ensures !PriceRejected(text)
  {
  }

  /** A price of zero is rejected while a stock of zero is accepted. */
  lemma ZeroPriceAndStock()
    ensures PriceRejected("0") && !StockRejected("0")
  {
    assert AllDigits("0");
    assert DigitsValue("0") == 0 by {
      assert "0"[..0] == "";
    }
  }

  // ---------------------------------------------------------------------
  // combineMetadata

  /** A chosen file; `content` tells apart files that share a name. */
  datatype File = File(name: string, content: int)

  datatype ImageWithFile = ImageWithFile(meta: ImageMeta, file: File)

  /** `files.find(f => f.name === name)`. */
  function FirstFile(files: seq<File>, name: string): (r: Option<File>)
    ensures r.Some? ==> r.value in files && r.value.name == name
    ensures r.None? <==> forall f :: f in files ==> f.name != name
  {
    if files == [] then None
    else if files[0].name == name then Some(files[0])
    else FirstFile(files[1..], name)
  }

  /** The file found is the first of that name: every earlier file has another name. */
  lemma {:induction false} FirstFileIsFirst(files: seq<File>, name: string)
    requires FirstFile(files, name).Some?
    ensures exists i :: 0 <= i < |files| && files[i] == FirstFile(files, name).value &&
                         forall j :: 0 <= j < i ==> files[j].name != name
    decreases |files|
  {
    if files[0].name != name {
      FirstFileIsFirst(files[1..], name);
      var i :| 0 <= i < |files[1..]| && files[1..][i] == FirstFile(files, name).value &&
        forall j :: 0 <= j < i ==> files[1..][j].name != name;
      forall j | 0 <= j < i + 1
        ensures files[j].name != name
      {
        if j > 0 {
          assert files[j] == files[1..][j - 1];
        }
      }
      assert files[i + 1] == FirstFile(files, name).value;
    } else {
      assert files[0] == FirstFile(files, name).value;
    }
  }

  /** The list `combineMetadata` builds: each metadata entry with a file of its name, paired with the first such file. */
  function Combined(meta: seq<ImageMeta>, files: seq<File>): seq<ImageWithFile>
  {
    if meta == [] then []
    else
      var prefix := Combined(meta[..|meta| - 1], files);
      var last := meta[|meta| - 1];
      match FirstFile(files, last.originalFileName)
      case None => prefix
      case Some(f) => prefix + [ImageWithFile(last, f)]
  }

  function Metas(list: seq<ImageWithFile>): (r: seq<ImageMeta>)
    ensures |r| == |list|
    ensures forall i :: 0 <= i < |list| ==> r[i] == list[i].meta
  {
    seq(|list|, i requires 0 <= i < |list| => list[i].meta)
  }

  /** A metadata entry is kept when some file carries its name. */
  predicate HasFile(files: seq<File>, img: ImageMeta)
  {
    FirstFile(files, img.originalFileName).Some?
  }

  /**
   * What the pairing promises: the metadata kept are exactly those with a file,
   * in their order, each with the first file of its name; so there are never
   * more pairs than metadata entries.
   */
  lemma {:induction false} CombinedMeaning(meta: seq<ImageMeta>, files: seq<File>)
    ensures Metas(Combined(meta, files)) == Filter(meta, (img: ImageMeta) => HasFile(files, img))
    ensures |Combined(meta, files)| <= |meta|
    ensures forall i :: 0 <= i < |Combined(meta, files)| ==>
      Some(Combined(meta, files)[i].file) == FirstFile(files, Combined(meta, files)[i].meta.originalFileName)
    decreases |meta|
  {
    var keep := (img: ImageMeta) => HasFile(files, img);
    if meta != [] {
      var init := meta[..|meta| - 1];
      var last := meta[|meta| - 1];
      CombinedMeaning(init, files);
      FilterAppend(init, [last], keep);
      assert meta == init + [last];
      if HasFile(files, last) {
        assert Filter([last], keep) == [last];
        var c := Combined(meta, files);
        assert c == Combined(init, files) + [ImageWithFile(last, FirstFile(files, last.originalFileName).value)];
        assert Metas(c) == Metas(Combined(init, files)) + [last];
      } else {
        assert Filter([last], keep) == [];
        assert Filter(meta, keep) == Filter(init, keep);
      }
    }
  }

  // ---------------------------------------------------------------------
  // The submit payload

  /** An image entry of the request: the metadata without `imageId`. */
  datatype ImagePayload = ImagePayload(originalFileName: string, altText: string, sequence: int, isNew: bool)

  datatype Payload = Payload(
    productName: string,
    productDescription: string,
    categoryId: string,
    productPrice: Option<int>,
    productStock: Option<int>,
    imageMetadataList: seq<ImagePayload>)

  function ImagePayloadOf(img: ImageMeta): ImagePayload
  {
    ImagePayload(img.originalFileName, img.altText, img.sequence, img.isNew)
  }

  /** The request built from the form: the number fields parsed, one image entry per metadata entry. */
  function PayloadOf(formData: map<FieldName, string>, images: seq<ImageMeta>): (p: Payload)
    ensures |p.imageMetadataList| == |images|
    ensures forall i :: 0 <= i < |images| ==>
      p.imageMetadataList[i].originalFileName == images[i].originalFileName &&
      p.imageMetadataList[i].altText == images[i].altText &&
      p.imageMetadataList[i].sequence == images[i].sequence &&
      p.imageMetadataList[i].isNew == images[i].isNew
    ensures p.productName == Field(formData, ProductName) && p.productDescription == Field(formData, ProductDescription)
    ensures p.categoryId == Field(formData, CategoryId)
    ensures p.productPrice == ParseIntOf(Field(formData, ProductPrice))
    ensures p.productStock == ParseIntOf(Field(formData, ProductStock))
  {
    Payload(
      Field(formData, ProductName),
      Field(formData, ProductDescription),
      Field(formData, CategoryId),
      ParseIntOf(Field(formData, ProductPrice)),
      ParseIntOf(Field(formData, ProductStock)),
      seq(|images|, i requires 0 <= i < |images| => ImagePayloadOf(images[i])))
  }

  // ---------------------------------------------------------------------
  // The form

  /** The registration call resolves with an HTTP status, or throws. */
  datatype RegisterOutcome = Status(code: int) | Threw

  const EmptyForm: map<FieldName, string> :=
    map[ProductName := "", ProductDescription := "", CategoryId := "", ProductPrice := "", ProductStock := ""]

  /** `m` holds exactly the failing rules among `done`, each with its message. */
  ghost predicate Built(m: map<ErrorKey, string>, formData: map<FieldName, string>, images: seq<ImageMeta>, done: set<ErrorKey>)
  {
    forall key :: (key in m <==> key in done && Fails(formData, images, key)) && (key in m ==> m[key] == MessageFor(key))
  }

  /** One more rule checked, in the way `validateForm` does it. */
  lemma BuiltStep(m: map<ErrorKey, string>, formData: map<FieldName, string>, images: seq<ImageMeta>, done: set<ErrorKey>,
                  key: ErrorKey, failed: bool, next: map<ErrorKey, string>)
    requires Built(m, formData, images, done)
    requires failed == Fails(formData, images, key)
    requires next == if failed then m[key := MessageFor(key)] else m
    ensures Built(next, formData, images, done + {key})
  {
  }

  /** Once every rule is checked, the dictionary is the one `FormErrors` describes. */
  lemma BuiltIsFormErrors(m: map<ErrorKey, string>, formData: map<FieldName, string>, images: seq<ImageMeta>)
    requires Built(m, formData, images, AllKeys)
    ensures m == FormErrors(formData, images)
  {
    var e := FormErrors(formData, images);
    forall key
      ensures key in m <==> key in e
    {
      match key
      case OnField(f) => assert key in AllKeys;
      case Images =>
      case ImageAlt =>
    }
    assert m.Keys == e.Keys;
  }

  /** Adds `key`'s message when `failed`. */
  function Put(m: map<ErrorKey, string>, failed: bool, key: ErrorKey): map<ErrorKey, string>
  {
    if failed then m[key := MessageFor(key)] else m
  }

  /** Running the seven rules in the source's order builds exactly `FormErrors`. */
  lemma RulesInOrder(formData: map<FieldName, string>, images: seq<ImageMeta>,
                     b0: bool, b1: bool, b2: bool, b3: bool, b4: bool, b5: bool, b6: bool)
    requires b0 == Blank(Field(formData, ProductName))
    requires b1 == Blank(Field(formData, ProductDescription))
    requires b2 == (Field(formData, CategoryId) == "")
    requires b3 == PriceRejected(Field(formData, ProductPrice))
    requires b4 == StockRejected(Field(formData, ProductStock))
    requires b5 == !HasProductPhoto(images)
    requires b6 == PhotoWithoutAlt(images)
    ensures Put(Put(Put(Put(Put(Put(Put(map[], b0, OnField(ProductName)), b1, OnField(ProductDescription)),
      b2, OnField(CategoryId)), b3, OnField(ProductPrice)), b4, OnField(ProductStock)), b5, Images), b6, ImageAlt)
      == FormErrors(formData, images)
  {
    var e0: map<ErrorKey, string> := map[];
    var e1 := Put(e0, b0, OnField(ProductName));
    BuiltStep(e0, formData, images, {}, OnField(ProductName), b0, e1);
    var e2 := Put(e1, b1, OnField(ProductDescription));
    BuiltStep(e1, formData, images, {OnField(ProductName)}, OnField(ProductDescription), b1, e2);
    var e3 := Put(e2, b2, OnField(CategoryId));
    BuiltStep(e2, formData, images, {OnField(ProductName), OnField(ProductDescription)}, OnField(CategoryId), b2, e3);
    var e4 := Put(e3, b3, OnField(ProductPrice));
    BuiltStep(e3, formData, images, {OnField(ProductName), OnField(ProductDescription), OnField(CategoryId)}, OnField(ProductPrice),
      b3, e4);
    var e5 := Put(e4, b4, OnField(ProductStock));
    BuiltStep(e4, formData, images, {OnField(ProductName), OnField(ProductDescription), OnField(CategoryId), OnField(ProductPrice)},
      OnField(ProductStock), b4, e5);
    var e6 := Put(e5, b5, Images);
    BuiltStep(e5, formData, images,
      {OnField(ProductName), OnField(ProductDescription), OnField(CategoryId), OnField(ProductPrice), OnField(ProductStock)},
      Images, b5, e6);
    var e7 := Put(e6, b6, ImageAlt);
    BuiltStep(e6, formData, images,
      {OnField(ProductName), OnField(ProductDescription), OnField(CategoryId), OnField(ProductPrice), OnField(ProductStock), Images},
      ImageAlt, b6, e7);
    assert {OnField(ProductName), OnField(ProductDescription), OnField(CategoryId), OnField(ProductPrice), OnField(ProductStock), Images} + {ImageAlt} == AllKeys;
    BuiltIsFormErrors(e7, formData, images);
  }

  /** One `if (...) newErrors.key = message` of `validateForm`. */
  method Check(errors: map<ErrorKey, string>, failed: bool, key: ErrorKey) returns (next: map<ErrorKey, string>)
    ensures next == Put(errors, failed, key)
  {
    next := errors;
    if failed {
      next := next[key := MessageFor(key)];
    }
  }

  class RegistrationForm {
    var formData: map<FieldName, string>
    var imagesMetadata: seq<ImageMeta>
    var imageFiles: seq<File>
    var errors: map<ErrorKey, string>
    var isSubmitting: bool
    /** The registration requests sent: the payload and the files, oldest first. */
    var requests: seq<(Payload, seq<File>)>

    constructor()
      ensures formData == EmptyForm && imagesMetadata == [] && imageFiles == [] && errors == map[]
      ensures !isSubmitting && requests == []
    {
      formData := EmptyForm;
      imagesMetadata := [];
      imageFiles := [];
      errors := map[];
      isSubmitting := false;
      requests := [];
    }

    /** `handleInputChange`: writes the value, and blanks a non-empty error on that input. */
    method InputChange(name: FieldName, value: string)
      modifies this
      ensures formData == old(formData)[name := value]
      ensures OnField(name) in old(errors) && old(errors)[OnField(name)] != "" ==> errors == old(errors)[OnField(name) := ""]
      ensures !(OnField(name) in old(errors) && old(errors)[OnField(name)] != "") ==> errors == old(errors)
      ensures imagesMetadata == old(imagesMetadata) && imageFiles == old(imageFiles) && requests == old(requests)
      ensures isSubmitting == old(isSubmitting)
    {
      formData := formData[name := value];
      if OnField(name) in errors && errors[OnField(name)] != "" {
        errors := errors[OnField(name) := ""];
      }
    }

    /** `handleUpdateImages`: the metadata and the files, in the same order. */
    method UpdateImages(data: seq<ImageWithFile>)
      modifies this
      ensures imagesMetadata == Metas(data)
      ensures |imageFiles| == |data| && forall i :: 0 <= i < |data| ==> imageFiles[i] == data[i].file
      ensures formData == old(formData) && errors == old(errors) && requests == old(requests)
      ensures isSubmitting == old(isSubmitting)
    {
      imagesMetadata := Metas(data);
      imageFiles := seq(|data|, i requires 0 <= i < |data| => data[i].file);
    }

    /** `validateForm`: the errors are replaced by a freshly built dictionary; true iff it is empty. */
    method ValidateForm() returns (ok: bool)
      modifies this
      ensures errors == FormErrors(formData, imagesMetadata)
      ensures ok <==> errors == map[]
      ensures formData == old(formData) && imagesMetadata == old(imagesMetadata)
      ensures imageFiles == old(imageFiles) && requests == old(requests) && isSubmitting == old(isSubmitting)
    {
      var newErrors: map<ErrorKey, string> := map[];
      var nameBlank := Blank(Field(formData, ProductName));
      newErrors := Check(newErrors, nameBlank, OnField(ProductName));
      var descriptionBlank := Blank(Field(formData, ProductDescription));
      newErrors := Check(newErrors, descriptionBlank, OnField(ProductDescription));
      var noCategory := Field(formData, CategoryId) == "";
      newErrors := Check(newErrors, noCategory, OnField(CategoryId));
      var badPrice := PriceRejected(Field(formData, ProductPrice));
      newErrors := Check(newErrors, badPrice, OnField(ProductPrice));
      var badStock := StockRejected(Field(formData, ProductStock));
      newErrors := Check(newErrors, badStock, OnField(ProductStock));
      var productImages := Filter(imagesMetadata, IsProductPhoto);
      newErrors := Check(newErrors, |productImages| == 0, Images);
      var imagesWithoutAlt := Filter(imagesMetadata, MissingAlt);
      newErrors := Check(newErrors, |imagesWithoutAlt| > 0, ImageAlt);
      PhotosFilter(imagesMetadata);
      MissingAltFilter(imagesMetadata);
      RulesInOrder(formData, imagesMetadata,
        nameBlank, descriptionBlank, noCategory, badPrice, badStock, |productImages| == 0, |imagesWithoutAlt| > 0);
      errors := newErrors;
      ok := |newErrors| == 0;
    }

    /**
     * `handleSubmit`: an invalid form sends nothing; otherwise the payload is
     * sent, and a 200 or 201 clears the inputs, the images and the errors.
     */
    method Submit(outcome: RegisterOutcome)
      modifies this
      ensures !isSubmitting
      ensures FormErrors(old(formData), old(imagesMetadata)) != map[] ==>
        requests == old(requests) && errors == FormErrors(old(formData), old(imagesMetadata)) &&
        formData == old(formData) && imagesMetadata == old(imagesMetadata) && imageFiles == old(imageFiles)
      ensures FormErrors(old(formData), old(imagesMetadata)) == map[] ==>
        requests == old(requests) + [(PayloadOf(old(formData), old(imagesMetadata)), old(imageFiles))]
      ensures FormErrors(old(formData), old(imagesMetadata)) == map[] && outcome.Status? && (outcome.code == 200 || outcome.code == 201) ==>
        formData == EmptyForm && imagesMetadata == [] && imageFiles == [] && errors == map[]
      ensures FormErrors(old(formData), old(imagesMetadata)) == map[] && !(outcome.Status? && (outcome.code == 200 || outcome.code == 201)) ==>
        formData == old(formData) && imagesMetadata == old(imagesMetadata) && imageFiles == old(imageFiles) && errors == map[]
    {
      var payload := PayloadOf(formData, imagesMetadata);
      isSubmitting := true;
      var ok := ValidateForm();
      if !ok {
        isSubmitting := false;
        return;
      }
      requests := requests + [(payload, imageFiles)];
      if outcome.Status? && (outcome.code == 201 || outcome.code == 200) {
        formData := EmptyForm;
        imagesMetadata := [];
        imageFiles := [];
        errors := map[];
      }
      isSubmitting := false;
    }

    /** `combineMetadata`: one pass over the metadata, pushing each entry that has a file. */
    method CombineMetadata(meta: seq<ImageMeta>, files: seq<File>) returns (list: seq<ImageWithFile>)
      ensures list == Combined(meta, files)
      ensures Metas(list) == Filter(meta, (img: ImageMeta) => HasFile(files, img))
      ensures |list| <= |meta|
    {
      list := [];
      var i := 0;
      while i < |meta|
        invariant 0 <= i <= |meta|
        invariant list == Combined(meta[..i], files)
      {
        var img := meta[i];
        var file := FirstFile(files, img.originalFileName);
        assert meta[..i + 1][..i] == meta[..i];
        if file.Some? {
          list := list + [ImageWithFile(img, file.value)];
        }
        i := i + 1;
      }
      assert meta[..|meta|] == meta;
      CombinedMeaning(meta, files);
    }
  }

  /** `filter(img => img.sequence < 10)` is empty exactly when there is no product photo. */
  lemma PhotosFilter(images: seq<ImageMeta>)
    ensures |Filter(images, IsProductPhoto)| == 0 <==> !HasProductPhoto(images)
  {
    if HasProductPhoto(images) {
      var i :| 0 <= i < |images| && IsProductPhoto(images[i]);
      FilterMembership(images, IsProductPhoto, images[i]);
    } else if |Filter(images, IsProductPhoto)| != 0 {
      FilterMembership(images, IsProductPhoto, Filter(images, IsProductPhoto)[0]);
    }
  }

  /** The alt-text filter is non-empty exactly when some product photo has blank alt text. */
  lemma MissingAltFilter(images: seq<ImageMeta>)
    ensures |Filter(images, MissingAlt)| > 0 <==> PhotoWithoutAlt(images)
  {
    var p := MissingAlt;
    if PhotoWithoutAlt(images) {
      var i :| 0 <= i < |images| && IsProductPhoto(images[i]) && Blank(images[i].altText);
      FilterMembership(images, p, images[i]);
    } else if |Filter(images, p)| > 0 {
      FilterMembership(images, p, Filter(images, p)[0]);
    }
  }
}
