/** The new-product form (src/components/admin/AddProductPage.tsx). The
    form keeps the product being entered as a JavaScript object whose keys
    the inputs address by name, a dotted name reaching into a nested object;
    here that object is a map from keys to values. `Number(value)` is the
    parameter `toNumber`, and only whole numbers are modelled. */
module AddProduct {
  import opened Wrappers
  import opened Text

  /** The values the form's object holds. */
  datatype Value =
    | Undefined
    | Str(s: string)
    | Num(n: int)
    | List(items: seq<string>)
    | Obj(fields: map<string, string>)

  type Draft = map<string, Value>

  /** `obj[key]`: a missing key reads as undefined. */
  function Get(d: Draft, key: string): Value {
    if key in d then d[key] else Undefined
  }

  /** initialPerfumeState (src/components/admin/AddProductPage.tsx:11-29). */
  const InitialDraft: Draft := map[
    "name" := Str(""), "brand" := Str(""), "volume" := Str(""), "price" := Num(0),
    "originalPrice" := Undefined, "stock" := Num(0), "imageUrl" := Str(""), "images" := List([]),
    "gender" := Str("Unisex"), "olfactoryFamily" := Str("Aromático"), "sku" := Str(""),
    "details" := Obj(map["description" := "", "olfactoryNotes" := "", "concept" := "", "applicationPoint" := ""])]

  /** The inputs the form renders, by name, each saying whether it is a
      number input (src/components/admin/AddProductPage.tsx:115-137). */
  const FormInputs: map<string, bool> := map[
    "name" := false, "brand" := false, "details.description" := false, "price" := true,
    "originalPrice" := true, "sku" := false, "stock" := true]

  /** The value stored for an input whose name has no dot: a number input
      that was cleared is undefined, any other number input holds its number,
      and a text input holds its text as typed. */
  function InputValue(value: string, isNumber: bool, toNumber: string -> int): (r: Value)
    ensures isNumber && value == "" ==> r == Undefined
    ensures isNumber && value != "" ==> r == Num(toNumber(value))
    ensures !isNumber ==> r == Str(value)
  {
    if isNumber then (if value == "" then Undefined else Num(toNumber(value))) else Str(value)
  }

  /** `{ ...parent, [child]: value }`. The form's `details` is an object
      whenever it is set; the other case stands for spreading `undefined`,
      which contributes no keys. */
  function SetNested(parent: Value, child: string, value: string): Value {
    match parent
    case Obj(m) => Obj(m[child := value])
    case _ => Obj(map[child := value])
  }

  /** The first two pieces of a dotted name (`name.split('.')`). */
  function ParentKey(name: string): string {
    Split(name, '.')[0]
  }

  function ChildKey(name: string): string
    requires '.' in name
  {
    SplitAtSeparator(name, '.');
    Split(name, '.')[1]
  }

  /** handleInputChange (src/components/admin/AddProductPage.tsx:65-84). */
  function ChangeInput(d: Draft, name: string, value: string, isNumber: bool, toNumber: string -> int): Draft {
    if '.' in name then
      d[ParentKey(name) := SetNested(Get(d, ParentKey(name)), ChildKey(name), value)]
    else
      d[name := InputValue(value, isNumber, toNumber)]
  }

  /** A name without a dot sets that key and no other. */
  lemma ChangeFlat(d: Draft, name: string, value: string, isNumber: bool, toNumber: string -> int)
    requires '.' !in name
    ensures var r := ChangeInput(d, name, value, isNumber, toNumber);
      Get(r, name) == InputValue(value, isNumber, toNumber)
      && forall k :: k != name ==> Get(r, k) == Get(d, k)
  {
  }

  /** A dotted name sets that child of the nested object and keeps its other
      children and every other key. */
  lemma ChangeNested(d: Draft, name: string, value: string, isNumber: bool, toNumber: string -> int)
    requires '.' in name
    ensures var r := ChangeInput(d, name, value, isNumber, toNumber);
      var parent := ParentKey(name);
      Get(r, parent).Obj? && Get(r, parent).fields[ChildKey(name)] == value
      && (forall k :: k != parent ==> Get(r, k) == Get(d, k))
      && (Get(d, parent).Obj? ==>
            forall c :: c != ChildKey(name) && c in Get(d, parent).fields ==>
              c in Get(r, parent).fields && Get(r, parent).fields[c] == Get(d, parent).fields[c])
  {
  }

  /** The one dotted input of the form edits the description. */
  lemma DescriptionInput(name: string)
    requires name == "details.description"
    ensures '.' in name && ParentKey(name) == "details" && ChildKey(name) == "description"
  {
    assert name[7] == '.';
    assert name[..7] == "details";
    assert '.' !in name[..7];
    assert IndexOf(name, '.') == 7;
    var rest := name[8..];
    assert rest == "description";
    assert '.' !in rest;
    assert Split(name, '.') == [name[..7]] + Split(rest, '.');
  }

  /** handleImageChange (src/components/admin/AddProductPage.tsx:86-92). */
  function ChangeImages(d: Draft, mainImageUrl: string, allImages: seq<string>): (r: Draft)
    ensures Get(r, "imageUrl") == Str(mainImageUrl) && Get(r, "images") == List(allImages)
    ensures forall k :: k != "imageUrl" && k != "images" ==> Get(r, k) == Get(d, k)
  {
    d["imageUrl" := Str(mainImageUrl)]["images" := List(allImages)]
  }

  /** JavaScript's `!v` on the values the form holds. */
  predicate Falsy(v: Value) {
    v.Undefined? || v == Str("") || v == Num(0)
  }

  /** `v <= n` and `v < n` on a number field: undefined compares false. */
  predicate AtMost(v: Value, n: int) {
    v.Num? && v.n <= n
  }

  predicate Below(v: Value, n: int) {
    v.Num? && v.n < n
  }

  /** handleSubmit's check (src/components/admin/AddProductPage.tsx:97-101). */
  predicate PassesCheck(d: Draft) {
    !(Falsy(Get(d, "name")) || AtMost(Get(d, "price"), 0) || Below(Get(d, "stock"), 0) || Falsy(Get(d, "imageUrl")))
  }

  /** A `required` input that is not empty: a text with characters, or a number. */
  predicate Filled(v: Value) {
    (v.Str? && v.s != "") || v.Num?
  }

  /** A `min="0"` input whose number is not below zero. */
  predicate NotNegative(v: Value) {
    !(v.Num? && v.n < 0)
  }

  /** The browser submits the form only when the required inputs (name,
      price, stock) are filled and no number input is below its minimum. */
  predicate BrowserAllows(d: Draft) {
    Filled(Get(d, "name")) && Filled(Get(d, "price")) && Filled(Get(d, "stock"))
    && NotNegative(Get(d, "price")) && NotNegative(Get(d, "stock")) && NotNegative(Get(d, "originalPrice"))
  }

  /** The product is saved exactly when the browser submits and the check passes. */
  predicate Saves(d: Draft) {
    BrowserAllows(d) && PassesCheck(d)
  }

  predicate NumberOrUndefined(v: Value) {
    v.Num? || v.Undefined?
  }

  /** The shape every state of the form has: the texts are texts, the
      numbers numbers or undefined. */
  predicate WellTyped(d: Draft) {
    Get(d, "name").Str? && Get(d, "imageUrl").Str?
    && NumberOrUndefined(Get(d, "price")) && NumberOrUndefined(Get(d, "stock"))
    && NumberOrUndefined(Get(d, "originalPrice"))
  }

  /** In a well-typed form, saving happens exactly for a non-empty name, a
      price above zero, a stock of zero or more, a main image and an original
      price that is not negative. */
  lemma SavesExactly(d: Draft)
    requires WellTyped(d)
    ensures Saves(d) <==>
      Get(d, "name") != Str("") && Get(d, "price").Num? && Get(d, "price").n > 0
      && Get(d, "stock").Num? && Get(d, "stock").n >= 0 && Get(d, "imageUrl") != Str("")
      && NotNegative(Get(d, "originalPrice"))
  {
  }

  /** The script's check alone lets a cleared price through, since undefined
      is not at most zero; the `required` attribute is what stops it. */
  lemma ClearedPriceStoppedByBrowser(d: Draft)
    requires Get(d, "price") == Undefined
    requires Get(d, "name") == Str("Aura") && Get(d, "stock") == Num(1) && Get(d, "imageUrl") == Str("x.png")
    ensures PassesCheck(d) && !Saves(d)
  {
  }

  /** The form as it opens cannot be saved. */
  lemma InitialNotSaved(d: Draft)
    requires d == InitialDraft
    ensures WellTyped(d) && !PassesCheck(d) && !Saves(d)
  {
    assert Get(d, "name") == Str("");
    assert Get(d, "price") == Num(0);
  }

  /** Each input of the form keeps the form well typed. */
  lemma FlatInputKeepsShape(d: Draft, name: string, value: string, isNumber: bool, toNumber: string -> int)
    requires WellTyped(d) && name in FormInputs && FormInputs[name] == isNumber && '.' !in name
    ensures WellTyped(d[name := InputValue(value, isNumber, toNumber)])
  {
    if isNumber {
      assert name == "price" || name == "originalPrice" || name == "stock";
    } else {
      assert name != "price" && name != "originalPrice" && name != "stock";
    }
  }

  lemma NestedInputKeepsShape(d: Draft, name: string, value: string)
    requires WellTyped(d) && name in FormInputs && '.' in name
    ensures WellTyped(d[ParentKey(name) := SetNested(Get(d, ParentKey(name)), ChildKey(name), value)])
  {
    OnlyDottedInput(name);
    DescriptionInput(name);
    UntypedKeyKeepsShape(d, ParentKey(name), SetNested(Get(d, ParentKey(name)), ChildKey(name), value));
  }

  /** Setting a key the shape says nothing about keeps the shape. */
  lemma UntypedKeyKeepsShape(d: Draft, k: string, v: Value)
    requires WellTyped(d) && k == "details"
    ensures WellTyped(d[k := v])
  {
    assert k != "name" && k != "imageUrl" && k != "price" && k != "stock" && k != "originalPrice";
  }

  /** The description is the only input with a dotted name. */
  lemma OnlyDottedInput(name: string)
    requires name in FormInputs && '.' in name
    ensures name == "details.description"
  {
  }

  class ProductForm {
    var draft: Draft

    ghost predicate Valid()
      reads this
    {
      WellTyped(draft)
    }

    constructor ()
      ensures Valid() && draft == InitialDraft
    {
      draft := InitialDraft;
      InitialNotSaved(InitialDraft);
    }

    /** An input event from one of the form's inputs. */
    method HandleInputChange(name: string, value: string, isNumber: bool, toNumber: string -> int)
      requires Valid()
      requires name in FormInputs && FormInputs[name] == isNumber
      modifies this
      ensures Valid()
      ensures draft == ChangeInput(old(draft), name, value, isNumber, toNumber)
    {
      if '.' in name {
        var parent := ParentKey(name);
        var child := ChildKey(name);
        NestedInputKeepsShape(draft, name, value);
        draft := draft[parent := SetNested(Get(draft, parent), child, value)];
      } else {
        FlatInputKeepsShape(draft, name, value, isNumber, toNumber);
        draft := draft[name := InputValue(value, isNumber, toNumber)];
      }
    }

    /** The gallery reporting a new main image and list. */
    method HandleImageChange(mainImageUrl: string, allImages: seq<string>)
      requires Valid()
      modifies this
      ensures Valid()
      ensures draft == ChangeImages(old(draft), mainImageUrl, allImages)
    {
      draft := draft["imageUrl" := Str(mainImageUrl)]["images" := List(allImages)];
    }

    /** handleSubmit: what is handed to `onSave`, if anything; a refused
        submission only shows an alert. */
    method HandleSubmit() returns (saved: Option<Draft>)
      requires Valid()
      ensures saved.Some? <==> Saves(draft)
      ensures saved.Some? ==> saved.value == draft
    {
      if !BrowserAllows(draft) {
        return None;
      }
      if Falsy(Get(draft, "name")) || AtMost(Get(draft, "price"), 0) || Below(Get(draft, "stock"), 0)
        || Falsy(Get(draft, "imageUrl")) {
        return None;
      }
      return Some(draft);
    }
  }
}
