// The caterer's meal and menu editors and the admin dashboard. Each
// component's React state is a class whose fields are its state cells; an
// async handler is split at its `await` into a Begin method and a Finish
// method, and what a service call settles to is a parameter (`None` when it
// throws).

/** The meal objects the editors receive, and a file picked in an upload input. */
module MealRecords {
  import opened Common

  /** A meal as the backend serialises it; prices are whole numbers here. */
  datatype MealRecord = MealRecord(id: int, name: string, description: string, price: int,
                                   category: string, imageUrl: Option<string>, available: bool)

  /** A `File` object taken from `e.target.files[0]`. */
  datatype Upload = Upload(fileName: string)

  /** `price.toString()` for a whole-number price: its decimal text, which
      reads back as the price. */
  function PriceText(price: int): (t: string)
    ensures price >= 0 ==> AllDigits(t) && DecimalValue(t) == price
    ensures price < 0 ==> |t| >= 2 && t[0] == '-' && AllDigits(t[1..]) && DecimalValue(t[1..]) == -price
  {
    if price >= 0 then
      DecimalRoundTrip(price);
      IntText(price)
    else
      DecimalRoundTrip(-price);
      assert IntText(price)[1..] == Decimal(-price);
      IntText(price)
  }
}

/** Frontend/src/components/caterer/MenuManagement.jsx: choosing today's menu. */
module MenuManagement {
  import opened Common
  import opened MealRecords

  /** What `getTodaysMenu()` resolves to: an object whose `meals` field may be
      absent, or `null`, on which reading `meals` throws. */
  datatype TodaysMenu = MenuObject(meals: Option<seq<MealRecord>>) | NullMenu

  /** The body handed to `createMenu`. */
  datatype MenuPayload = MenuPayload(date: string, mealIds: seq<int>)

  /** `meals.map(meal => meal.id)`. */
  function IdList(meals: seq<MealRecord>): (ids: seq<int>)
    ensures |ids| == |meals|
    ensures forall i :: 0 <= i < |meals| ==> ids[i] == meals[i].id
  {
    if meals == [] then [] else [meals[0].id] + IdList(meals[1..])
  }

  // A JavaScript `Set` of meal ids is modelled by its elements in insertion
  // order, each once: `Array.from` hands them over in that order.

  /** `new Set(xs)`: each element once, where it first occurs. The contract
      gives the elements and no repeats; `DistinctIsSubsequence` the order. */
  function Distinct(xs: seq<int>): (r: seq<int>)
    ensures NoDuplicates(r) && |r| <= |xs|
    ensures forall x :: x in r <==> x in xs
  {
    if xs == [] then []
    else
      var d := Distinct(xs[..|xs| - 1]);
      assert forall x :: x in xs <==> x in xs[..|xs| - 1] || x == xs[|xs| - 1] by {
        assert xs == xs[..|xs| - 1] + [xs[|xs| - 1]];
      }
      if xs[|xs| - 1] in d then d else d + [xs[|xs| - 1]]
  }

  /** The distinct elements come in the order of `xs`. */
  lemma {:induction false} DistinctIsSubsequence(xs: seq<int>)
    ensures IsSubsequence(Distinct(xs), xs)
    decreases |xs|
  {
    if xs != [] {
      var init := xs[..|xs| - 1];
      var last := xs[|xs| - 1];
      assert xs == init + [last];
      DistinctIsSubsequence(init);
      if last in Distinct(init) {
        SubsequenceOfExtended(Distinct(init), init, last);
      } else {
        SubsequenceBothExtended(Distinct(init), init, last);
      }
    }
  }

  /** `set.add(id)`: appended when not yet present. */
  function Added(s: seq<int>, id: int): (r: seq<int>)
    ensures id in r
    ensures forall x :: x != id ==> (x in r <==> x in s)
    ensures id in s ==> r == s
    ensures NoDuplicates(s) ==> NoDuplicates(r)
  {
    if id in s then s else s + [id]
  }

  /** `set.delete(id)`. */
  function Deleted(s: seq<int>, id: int): (r: seq<int>)
    ensures id !in r && |r| <= |s|
    ensures forall x :: x != id ==> (x in r <==> x in s)
    ensures NoDuplicates(s) ==> NoDuplicates(r)
  {
    if s == [] then []
    else
      assert NoDuplicates(s) ==> NoDuplicates(s[1..]) && s[0] !in s[1..];
      if s[0] == id then Deleted(s[1..], id) else [s[0]] + Deleted(s[1..], id)
  }

  /** Deleting an absent id changes nothing. */
  lemma {:induction false} DeletedAbsent(s: seq<int>, id: int)
    requires id !in s
    ensures Deleted(s, id) == s
  {
    if s != [] {
      DeletedAbsent(s[1..], id);
    }
  }

  /** Deleting the id just appended gives the set back. */
  lemma {:induction false} DeletedAfterAppend(s: seq<int>, id: int)
    requires id !in s
    ensures Deleted(s + [id], id) == s
  {
    if s == [] {
      assert [id][1..] == [];
    } else {
      assert (s + [id])[1..] == s[1..] + [id];
      DeletedAfterAppend(s[1..], id);
    }
  }

  /** `handleMealToggle`: the selection with one id added (checked) or removed. */
  function Toggle(selected: seq<int>, id: int, checked: bool): (r: seq<int>)
    ensures id in r <==> checked
    ensures forall other :: other != id ==> (other in r <==> other in selected)
    ensures NoDuplicates(selected) ==> NoDuplicates(r)
  {
    if checked then Added(selected, id) else Deleted(selected, id)
  }

  /** Toggling the same way twice is toggling once. Checking and then
      unchecking a meal restores the selection; unchecking and re-checking a
      selected meal moves it to the end of the list that is saved. */
  lemma ToggleRoundTrip(selected: seq<int>, id: int, checked: bool)
    ensures Toggle(Toggle(selected, id, checked), id, checked) == Toggle(selected, id, checked)
    ensures id !in selected ==> Toggle(Toggle(selected, id, true), id, false) == selected
    ensures id in selected ==> Toggle(Toggle(selected, id, false), id, true) == Deleted(selected, id) + [id]
  {
    if !checked {
      DeletedAbsent(Deleted(selected, id), id);
    }
    if id !in selected {
      DeletedAfterAppend(selected, id);
    }
  }

  /** `iso.split('T')[0]`: the text before the first 'T', or all of it. */
  function DatePart(iso: string): (d: string)
    ensures |d| <= |iso| && d == iso[..|d|]
    ensures 'T' !in d
    ensures |d| < |iso| ==> iso[|d|] == 'T'
  {
    if iso == [] || iso[0] == 'T' then [] else [iso[0]] + DatePart(iso[1..])
  }

  class MenuEditor {
    var meals: seq<MealRecord>
    var todaysMenu: seq<MealRecord>
    var selected: seq<int>
    var isLoading: bool
    var isSaving: bool

    /** The selection holds each id once. */
    predicate Valid()
      reads this
    {
      NoDuplicates(selected)
    }

    constructor ()
      ensures Valid() && meals == [] && todaysMenu == [] && selected == [] && isLoading && !isSaving
    {
      meals := [];
      todaysMenu := [];
      selected := [];
      isLoading := true;
      isSaving := false;
    }

    method BeginLoad()
      modifies this
      ensures isLoading && isSaving == old(isSaving)
      ensures meals == old(meals) && todaysMenu == old(todaysMenu) && selected == old(selected)
    {
      isLoading := true;
    }

    /** After `Promise.all` settles (`None` when either call throws).
        `mealsData || []` is stored before `menuData.meals` is read, so a null
        menu replaces the meal list but neither today's menu nor the selection. */
    method FinishLoad(loaded: Option<(Option<seq<MealRecord>>, TodaysMenu)>)
      requires Valid()
      modifies this
      ensures Valid() && !isLoading && isSaving == old(isSaving)
      ensures meals == (if loaded.Some? then OrEmpty(loaded.value.0) else old(meals))
      ensures loaded.Some? && loaded.value.1.MenuObject? ==>
                todaysMenu == OrEmpty(loaded.value.1.meals) && selected == Distinct(IdList(todaysMenu))
      ensures !(loaded.Some? && loaded.value.1.MenuObject?) ==>
                todaysMenu == old(todaysMenu) && selected == old(selected)
    {
      if loaded.Some? {
        var (mealsData, menuData) := loaded.value;
        meals := OrEmpty(mealsData);
        if menuData.MenuObject? {
          todaysMenu := OrEmpty(menuData.meals);
          selected := Distinct(IdList(OrEmpty(menuData.meals)));
        }
      }
      isLoading := false;
    }

    method HandleMealToggle(mealId: int, checked: bool)
      requires Valid()
      modifies this
      ensures Valid() && selected == Toggle(old(selected), mealId, checked)
      ensures meals == old(meals) && todaysMenu == old(todaysMenu)
      ensures isLoading == old(isLoading) && isSaving == old(isSaving)
    {
      var newSelected := selected;
      if checked {
        newSelected := Added(newSelected, mealId);
      } else {
        newSelected := Deleted(newSelected, mealId);
      }
      selected := newSelected;
    }

    /** Up to `await createMenu(menuData)`; `now` is the ISO text of the
        current time. The payload lists the selected ids once each, in the
        order they were selected. */
    method BeginSave(now: string) returns (payload: MenuPayload)
      requires Valid()
      modifies this
      ensures Valid() && isSaving && isLoading == old(isLoading)
      ensures meals == old(meals) && todaysMenu == old(todaysMenu) && selected == old(selected)
      ensures payload.date == DatePart(now) && payload.mealIds == selected
      ensures NoDuplicates(payload.mealIds)
    {
      isSaving := true;
      payload := MenuPayload(DatePart(now), selected);
    }

    /** After the save settles: the menu data is reloaded only on success. */
    method FinishSave(succeeded: bool) returns (reload: bool)
      requires Valid()
      modifies this
      ensures Valid() && !isSaving && reload == succeeded && isLoading == old(isLoading)
      ensures meals == old(meals) && todaysMenu == old(todaysMenu) && selected == old(selected)
    {
      reload := succeeded;
      isSaving := false;
    }
  }
}

/** Frontend/src/components/restaurant/MealForm.js: the create / edit dialog. */
module MealForm {
  import opened Common
  import ApiClient

  /** The optional `meal` prop. */
  datatype Meal = Meal(id: Option<nat>, name: string, description: string, price: int,
                       category: string, imageUrl: Option<string>)

  /** The form state. */
  datatype MealFields = MealFields(name: string, description: string, price: int,
                                   category: string, imageUrl: string)

  const BlankFields: MealFields := MealFields("", "", 0, "", "")

  /** The choices of the category select. */
  const MealCategories: seq<string> := ["Main Course", "Appetizer", "Dessert", "Beverage", "Salad",
                                        "Soup", "Snack", "Breakfast", "Vegetarian", "Vegan"]

  /** The initial state: each field is `meal?.field || default`. */
  function InitialFields(meal: Option<Meal>): (f: MealFields)
    ensures meal.None? ==> f == BlankFields
    ensures meal.Some? ==> f.name == meal.value.name && f.description == meal.value.description
                           && f.price == meal.value.price && f.category == meal.value.category
    ensures meal.Some? ==> f.imageUrl == (if meal.value.imageUrl.Some? then meal.value.imageUrl.value else "")
  {
    if meal.None? then BlankFields
    else
      var m := meal.value;
      MealFields(if m.name != "" then m.name else "",
                 if m.description != "" then m.description else "",
                 if m.price != 0 then m.price else 0,
                 if m.category != "" then m.category else "",
                 if Truthy(m.imageUrl) then m.imageUrl.value else "")
  }

  /** The validation guard of `handleSubmit`. */
  function Invalid(f: MealFields): (b: bool)
    ensures !b <==> f.name != "" && f.description != "" && f.category != "" && f.price >= 1
  {
    f.name == "" || f.description == "" || f.category == "" || f.price <= 0
  }

  /** `meal?.id` is truthy: present and not zero. */
  function HasId(meal: Option<Meal>): (b: bool)
    ensures b ==> meal.Some? && meal.value.id.Some?
    ensures !b && meal.Some? && meal.value.id.Some? ==> meal.value.id.value == 0
  {
    meal.Some? && meal.value.id.Some? && meal.value.id.value != 0
  }

  datatype SaveCall = SaveCall(verb: ApiClient.HttpMethod, endpoint: string, body: MealFields)

  /** The call a valid submit makes: an update of the meal's own resource
      when it has an id, otherwise a creation in the collection. */
  function SaveRequest(meal: Option<Meal>, form: MealFields): (c: SaveCall)
    ensures c.body == form
    ensures c.verb == ApiClient.PUT <==> HasId(meal)
    ensures !HasId(meal) ==> c.verb == ApiClient.POST && c.endpoint == ApiClient.MealsPath
    ensures HasId(meal) ==> c.endpoint == ApiClient.MealPath(meal.value.id.value)
  {
    if HasId(meal) then SaveCall(ApiClient.PUT, ApiClient.MealPath(meal.value.id.value), form)
    else SaveCall(ApiClient.POST, ApiClient.MealsPath, form)
  }

  /** A new dialog, or one reset after a save, is rejected until filled in. */
  lemma BlankFieldsInvalid()
    ensures Invalid(BlankFields)
    ensures Invalid(InitialFields(None))
  {
  }

  /** Opening the dialog on a complete meal lets it be saved unchanged, as
      an update exactly when the meal has an id. */
  lemma CompleteMealSubmits(meal: Meal)
    requires meal.name != "" && meal.description != "" && meal.category != "" && meal.price > 0
    ensures !Invalid(InitialFields(Some(meal)))
    ensures SaveRequest(Some(meal), InitialFields(Some(meal))).verb == ApiClient.PUT <==>
              meal.id.Some? && meal.id.value != 0
  {
  }

  /** One `handleChange(field, value)` call; the price input hands over
      `parseFloat(text) || 0`. */
  datatype FieldEdit = SetName(text: string) | SetDescription(text: string) | SetPrice(price: int)
                     | SetCategory(text: string) | SetImageUrl(text: string)

  class MealDialog {
    var formData: MealFields
    var isLoading: bool

    constructor (meal: Option<Meal>)
      ensures formData == InitialFields(meal) && !isLoading
    {
      formData := InitialFields(meal);
      isLoading := false;
    }

    method HandleChange(edit: FieldEdit)
      modifies this
      ensures isLoading == old(isLoading)
      ensures edit.SetName? ==> formData == old(formData).(name := edit.text)
      ensures edit.SetDescription? ==> formData == old(formData).(description := edit.text)
      ensures edit.SetPrice? ==> formData == old(formData).(price := edit.price)
      ensures edit.SetCategory? ==> formData == old(formData).(category := edit.text)
      ensures edit.SetImageUrl? ==> formData == old(formData).(imageUrl := edit.text)
    {
      match edit {
        case SetName(t) => formData := formData.(name := t);
        case SetDescription(t) => formData := formData.(description := t);
        case SetPrice(p) => formData := formData.(price := p);
        case SetCategory(t) => formData := formData.(category := t);
        case SetImageUrl(t) => formData := formData.(imageUrl := t);
      }
    }

    /** Up to the `await`: an invalid form makes no call and leaves the flag. */
    method BeginSubmit(meal: Option<Meal>) returns (call: Option<SaveCall>)
      modifies this
      ensures formData == old(formData)
      ensures call.None? <==> Invalid(formData)
      ensures call.None? ==> isLoading == old(isLoading)
      ensures call.Some? ==> isLoading && call.value == SaveRequest(meal, formData)
    {
      if Invalid(formData) {
        return None;
      }
      isLoading := true;
      call := Some(SaveRequest(meal, formData));
    }

    /** After the call settles: on success `onSuccess` and `onClose` run and
        the form is reset; the flag is cleared either way. */
    method FinishSubmit(succeeded: bool) returns (notified: bool)
      modifies this
      ensures !isLoading && notified == succeeded
      ensures formData == (if succeeded then BlankFields else old(formData))
    {
      notified := succeeded;
      if succeeded {
        formData := BlankFields;
      }
      isLoading := false;
    }
  }
}

/** Frontend/src/components/restaurant/MealManagement.jsx: the inline meal editor. */
module RestaurantMealManagement {
  import opened Common
  import opened MealRecords

  /** The form state; the price is the text of its input. */
  datatype EditorForm = EditorForm(name: string, description: string, price: string, image: Option<Upload>)

  const BlankForm: EditorForm := EditorForm("", "", "", None)

  /** `handleEdit`'s form for a meal: its texts, its price as text, no file. */
  function EditFormFor(meal: MealRecord): (f: EditorForm)
    ensures f.name == meal.name && f.description == meal.description && f.image.None?
    ensures meal.price >= 0 ==> AllDigits(f.price) && DecimalValue(f.price) == meal.price
  {
    EditorForm(meal.name, meal.description, PriceText(meal.price), None)
  }

  datatype SaveCall = UpdateMeal(id: int, form: EditorForm) | CreateMeal(form: EditorForm)

  class MealEditor {
    var meals: seq<MealRecord>
    var isLoading: bool
    var isSaving: bool
    var editingMeal: Option<MealRecord>
    var showForm: bool
    var formData: EditorForm

    /** The editor is hidden, edits nothing and holds a blank form. */
    predicate Closed()
      reads this
    {
      !showForm && editingMeal.None? && formData == BlankForm
    }

    constructor ()
      ensures meals == [] && isLoading && !isSaving && Closed()
    {
      meals := [];
      isLoading := true;
      isSaving := false;
      editingMeal := None;
      showForm := false;
      formData := BlankForm;
    }

    method BeginLoad()
      modifies this
      ensures isLoading && meals == old(meals) && isSaving == old(isSaving)
      ensures editingMeal == old(editingMeal) && showForm == old(showForm) && formData == old(formData)
    {
      isLoading := true;
    }

    /** `setMeals(mealsData)`, with no fallback for a missing list. */
    method FinishLoad(mealsData: Option<seq<MealRecord>>)
      modifies this
      ensures !isLoading && isSaving == old(isSaving)
      ensures meals == (if mealsData.Some? then mealsData.value else old(meals))
      ensures editingMeal == old(editingMeal) && showForm == old(showForm) && formData == old(formData)
    {
      if mealsData.Some? {
        meals := mealsData.value;
      }
      isLoading := false;
    }

    /** The "Add Meal" button. */
    method OpenForm()
      modifies this
      ensures showForm
      ensures meals == old(meals) && isLoading == old(isLoading) && isSaving == old(isSaving)
      ensures editingMeal == old(editingMeal) && formData == old(formData)
    {
      showForm := true;
    }

    method EditName(value: string)
      modifies this
      ensures formData == old(formData).(name := value)
      ensures meals == old(meals) && isLoading == old(isLoading) && isSaving == old(isSaving)
      ensures editingMeal == old(editingMeal) && showForm == old(showForm)
    {
      formData := formData.(name := value);
    }

    method EditDescription(value: string)
      modifies this
      ensures formData == old(formData).(description := value)
      ensures meals == old(meals) && isLoading == old(isLoading) && isSaving == old(isSaving)
      ensures editingMeal == old(editingMeal) && showForm == old(showForm)
    {
      formData := formData.(description := value);
    }

    method EditPrice(value: string)
      modifies this
      ensures formData == old(formData).(price := value)
      ensures meals == old(meals) && isLoading == old(isLoading) && isSaving == old(isSaving)
      ensures editingMeal == old(editingMeal) && showForm == old(showForm)
    {
      formData := formData.(price := value);
    }

    /** `image: e.target.files[0]`, absent when no file was picked. */
    method ChooseImage(file: Option<Upload>)
      modifies this
      ensures formData == old(formData).(image := file)
      ensures meals == old(meals) && isLoading == old(isLoading) && isSaving == old(isSaving)
      ensures editingMeal == old(editingMeal) && showForm == old(showForm)
    {
      formData := formData.(image := file);
    }

    /** Up to the `await`: an update of the meal being edited, or a creation. */
    method BeginSubmit() returns (call: SaveCall)
      modifies this
      ensures isSaving && meals == old(meals) && isLoading == old(isLoading)
      ensures editingMeal == old(editingMeal) && showForm == old(showForm) && formData == old(formData)
      ensures call.UpdateMeal? <==> editingMeal.Some?
      ensures call.form == formData
      ensures call.UpdateMeal? ==> call.id == editingMeal.value.id
    {
      isSaving := true;
      if editingMeal.Some? {
        call := UpdateMeal(editingMeal.value.id, formData);
      } else {
        call := CreateMeal(formData);
      }
    }

    /** After the save settles: success closes the editor and reloads the
        list; failure keeps the form as it was. */
    method FinishSubmit(succeeded: bool) returns (reload: bool)
      modifies this
      ensures !isSaving && reload == succeeded
      ensures meals == old(meals) && isLoading == old(isLoading)
      ensures succeeded ==> Closed()
      ensures !succeeded ==> editingMeal == old(editingMeal) && showForm == old(showForm) && formData == old(formData)
    {
      if succeeded {
        formData := BlankForm;
        editingMeal := None;
        showForm := false;
      }
      reload := succeeded;
      isSaving := false;
    }

    method HandleEdit(meal: MealRecord)
      modifies this
      ensures editingMeal == Some(meal) && formData == EditFormFor(meal) && showForm
      ensures meals == old(meals) && isLoading == old(isLoading) && isSaving == old(isSaving)
    {
      editingMeal := Some(meal);
      formData := EditFormFor(meal);
      showForm := true;
    }

    /** The "Cancel" button: the same closed state as a successful save. */
    method Cancel()
      modifies this
      ensures Closed()
      ensures meals == old(meals) && isLoading == old(isLoading) && isSaving == old(isSaving)
    {
      showForm := false;
      editingMeal := None;
      formData := BlankForm;
    }

    /** `handleToggleAvailability`: the id and the requested flag go to the
        service; the list is reloaded only when the call succeeds. */
    method ToggleAvailability(mealId: int, available: bool, succeeded: bool) returns (call: (int, bool), reload: bool)
      ensures call.0 == mealId && call.1 == available
      ensures reload <==> succeeded
    {
      call := (mealId, available);
      reload := succeeded;
    }

    /** `handleDelete`: nothing happens when the confirmation is declined. */
    method HandleDelete(mealId: int, confirmed: bool, succeeded: bool) returns (call: Option<int>, reload: bool)
      ensures call.Some? <==> confirmed
      ensures call.Some? ==> call.value == mealId
      ensures reload <==> confirmed && succeeded
    {
      if !confirmed {
        return None, false;
      }
      call := Some(mealId);
      reload := succeeded;
    }
  }
}

/** Frontend/src/components/caterer/MealManagement.jsx: the dialog meal editor. */
module CatererMealManagement {
  import opened Common
  import opened MealRecords

  /** A value of the form object: text, a picked file, or nothing
      (`null` or `undefined`). */
  datatype FormValue = Text(text: string) | File(upload: Upload) | Nothing

  /** JavaScript truthiness of a form value. */
  predicate ValueTruthy(v: FormValue) {
    v.File? || (v.Text? && v.text != "")
  }

  const BlankForm: map<string, FormValue> :=
    map["name" := Text(""), "description" := Text(""), "price" := Text(""), "category" := Text(""), "image" := Nothing]

  /** `{...formData}` with `image` deleted when it is falsy. */
  function SubmitData(form: map<string, FormValue>): (d: map<string, FormValue>)
    ensures ("image" in d) == ("image" in form && ValueTruthy(form["image"]))
    ensures forall k :: k != "image" ==> (k in d <==> k in form)
    ensures forall k :: k in d ==> d[k] == form[k]
  {
    if "image" in form && ValueTruthy(form["image"]) then form else form - {"image"}
  }

  /** Preparing the data twice is preparing it once. */
  lemma SubmitDataIdempotent(form: map<string, FormValue>)
    ensures SubmitData(SubmitData(form)) == SubmitData(form)
  {
  }

  /** After a file input is cleared, no image is sent. */
  lemma ClearedImageNotSent(form: map<string, FormValue>)
    ensures "image" !in SubmitData(form["image" := Nothing])
    ensures "image" !in SubmitData(BlankForm)
  {
  }

  /** `handleEdit`'s form for a meal: its texts, its price as text, no file. */
  function EditFormFor(meal: MealRecord): (f: map<string, FormValue>)
    ensures f.Keys == BlankForm.Keys
    ensures f["name"] == Text(meal.name) && f["description"] == Text(meal.description)
    ensures f["category"] == Text(meal.category) && f["image"] == Nothing && f["price"].Text?
    ensures meal.price >= 0 ==> AllDigits(f["price"].text) && DecimalValue(f["price"].text) == meal.price
  {
    map["name" := Text(meal.name), "description" := Text(meal.description),
        "price" := Text(PriceText(meal.price)), "category" := Text(meal.category), "image" := Nothing]
  }

  /** `meal.image_url || null`. */
  function PreviewFor(meal: MealRecord): (p: Option<string>)
    ensures p.Some? <==> Truthy(meal.imageUrl)
    ensures p.Some? ==> p == meal.imageUrl
  {
    if Truthy(meal.imageUrl) then meal.imageUrl else None
  }

  datatype SaveCall = UpdateMeal(id: int, data: map<string, FormValue>) | CreateMeal(data: map<string, FormValue>)

  /** The fields of a change event the handler reads. */
  datatype ChangeEvent = ChangeEvent(name: string, value: string, firstFile: Option<Upload>)

  class MealManager {
    var meals: seq<MealRecord>
    var isLoading: bool
    var isDialogOpen: bool
    var editingMeal: Option<MealRecord>
    var formData: map<string, FormValue>
    var imagePreview: Option<string>

    /** The dialog is closed, edits nothing and holds a blank form. */
    predicate Closed()
      reads this
    {
      !isDialogOpen && editingMeal.None? && formData == BlankForm && imagePreview.None?
    }

    constructor ()
      ensures meals == [] && isLoading && Closed()
    {
      meals := [];
      isLoading := true;
      isDialogOpen := false;
      editingMeal := None;
      formData := BlankForm;
      imagePreview := None;
    }

    method BeginLoad()
      modifies this
      ensures isLoading && meals == old(meals) && isDialogOpen == old(isDialogOpen)
      ensures editingMeal == old(editingMeal) && formData == old(formData) && imagePreview == old(imagePreview)
    {
      isLoading := true;
    }

    /** `setMeals(data || [])`; `data` is `Some(list)` when the call resolved. */
    method FinishLoad(data: Option<Option<seq<MealRecord>>>)
      modifies this
      ensures !isLoading && meals == (if data.Some? then OrEmpty(data.value) else old(meals))
      ensures isDialogOpen == old(isDialogOpen) && editingMeal == old(editingMeal)
      ensures formData == old(formData) && imagePreview == old(imagePreview)
    {
      if data.Some? {
        meals := OrEmpty(data.value);
      }
      isLoading := false;
    }

    /** The dialog's `onOpenChange`. */
    method SetDialogOpen(open: bool)
      modifies this
      ensures isDialogOpen == open && meals == old(meals) && isLoading == old(isLoading)
      ensures editingMeal == old(editingMeal) && formData == old(formData) && imagePreview == old(imagePreview)
    {
      isDialogOpen := open;
    }

    /** `handleSubmit` up to the `await`: it changes no state; the file goes
        along only when one was picked. */
    method SubmitCall() returns (call: SaveCall)
      ensures call.UpdateMeal? <==> editingMeal.Some?
      ensures call.UpdateMeal? ==> call.id == editingMeal.value.id
      ensures call.data == SubmitData(formData)
    {
      var submitData := formData;
      if !("image" in formData && ValueTruthy(formData["image"])) {
        submitData := submitData - {"image"};
      }
      if editingMeal.Some? {
        call := UpdateMeal(editingMeal.value.id, submitData);
      } else {
        call := CreateMeal(submitData);
      }
    }

    /** After the save settles: success closes and resets the dialog, starts
        a reload and calls `onStatsUpdate` when given; failure changes nothing. */
    method FinishSubmit(succeeded: bool, hasOnStatsUpdate: bool) returns (reload: bool, statsUpdate: bool)
      modifies this
      ensures reload == succeeded && statsUpdate == (succeeded && hasOnStatsUpdate)
      ensures meals == old(meals) && isLoading == old(isLoading)
      ensures succeeded ==> Closed()
      ensures !succeeded ==> isDialogOpen == old(isDialogOpen) && editingMeal == old(editingMeal)
                             && formData == old(formData) && imagePreview == old(imagePreview)
    {
      reload := succeeded;
      statsUpdate := succeeded && hasOnStatsUpdate;
      if succeeded {
        isDialogOpen := false;
        editingMeal := None;
        formData := BlankForm;
        imagePreview := None;
      }
    }

    method HandleEdit(meal: MealRecord)
      modifies this
      ensures editingMeal == Some(meal) && formData == EditFormFor(meal)
      ensures imagePreview == PreviewFor(meal) && isDialogOpen
      ensures meals == old(meals) && isLoading == old(isLoading)
    {
      editingMeal := Some(meal);
      formData := EditFormFor(meal);
      imagePreview := PreviewFor(meal);
      isDialogOpen := true;
    }

    /** `handleDelete`: nothing happens when the confirmation is declined. */
    method HandleDelete(mealId: int, confirmed: bool, succeeded: bool, hasOnStatsUpdate: bool)
      returns (call: Option<int>, reload: bool, statsUpdate: bool)
      ensures call.Some? <==> confirmed
      ensures call.Some? ==> call.value == mealId
      ensures reload <==> confirmed && succeeded
      ensures statsUpdate <==> confirmed && succeeded && hasOnStatsUpdate
    {
      if !confirmed {
        return None, false, false;
      }
      call := Some(mealId);
      reload := succeeded;
      statsUpdate := succeeded && hasOnStatsUpdate;
    }

    /** `handleChange`: the image input stores the picked file (or nothing)
        and its object URL as the preview; any other input stores its text
        under its own name. */
    method HandleChange(e: ChangeEvent, objectUrl: string)
      modifies this
      ensures e.name == "image" ==>
                formData == old(formData)["image" := if e.firstFile.Some? then File(e.firstFile.value) else Nothing]
                && imagePreview == (if e.firstFile.Some? then Some(objectUrl) else None)
      ensures e.name != "image" ==>
                formData == old(formData)[e.name := Text(e.value)] && imagePreview == old(imagePreview)
      ensures meals == old(meals) && isLoading == old(isLoading)
      ensures isDialogOpen == old(isDialogOpen) && editingMeal == old(editingMeal)
    {
      if e.name == "image" {
        var file := e.firstFile;
        formData := formData["image" := if file.Some? then File(file.value) else Nothing];
        imagePreview := if file.Some? then Some(objectUrl) else None;
      } else {
        formData := formData[e.name := Text(e.value)];
      }
    }
  }
}

/** Frontend/src/pages/admin/AdminDashboard.jsx: the user and meal lists. */
module AdminDashboard {
  import opened Common
  import opened MealRecords
  import Session
  import ApiClient

  /** `rows.filter(r => r.id !== id)`, with `key` reading a row's id. */
  function Without<T>(rows: seq<T>, key: T -> int, id: int): (r: seq<T>)
    ensures |r| <= |rows|
    ensures forall x :: x in r ==> x in rows && key(x) != id
  {
    if rows == [] then []
    else if key(rows[0]) != id then [rows[0]] + Without(rows[1..], key, id)
    else Without(rows[1..], key, id)
  }

  /** Every row with another id is kept. */
  lemma {:induction false} WithoutKeepsOthers<T>(rows: seq<T>, key: T -> int, id: int, x: T)
    requires x in rows && key(x) != id
    ensures x in Without(rows, key, id)
  {
    if rows[0] != x {
      WithoutKeepsOthers(rows[1..], key, id, x);
    }
  }

  /** Every row with another id is kept as often as it occurs, and rows
      with the id are all gone. */
  lemma {:induction false} WithoutCounts<T>(rows: seq<T>, key: T -> int, id: int)
    ensures forall x :: multiset(Without(rows, key, id))[x] == if key(x) != id then multiset(rows)[x] else 0
  {
    if rows != [] {
      WithoutCounts(rows[1..], key, id);
      assert rows == [rows[0]] + rows[1..];
      assert multiset(rows) == multiset([rows[0]]) + multiset(rows[1..]);
    }
  }

  /** Removing an id no row has changes nothing. */
  lemma {:induction false} WithoutAbsentId<T>(rows: seq<T>, key: T -> int, id: int)
    requires forall i :: 0 <= i < |rows| ==> key(rows[i]) != id
    ensures Without(rows, key, id) == rows
  {
    if rows != [] {
      WithoutAbsentId(rows[1..], key, id);
    }
  }

  /** The remaining rows keep their order. */
  lemma {:induction false} WithoutIsSubsequence<T>(rows: seq<T>, key: T -> int, id: int)
    ensures IsSubsequence(Without(rows, key, id), rows)
  {
    if rows != [] {
      WithoutIsSubsequence(rows[1..], key, id);
      var rest := Without(rows[1..], key, id);
      if key(rows[0]) != id {
        assert ([rows[0]] + rest)[1..] == rest;
      }
    }
  }

  function UserId(u: Session.User): int {
    u.id
  }

  function MealId(m: MealRecord): int {
    m.id
  }

  /** What `request('/users')` resolves to: an object whose `items` field may be absent. */
  datatype UsersPage = UsersPage(items: Option<seq<Session.User>>)

  const UsersPath: string := "/users"

  class AdminView {
    var users: seq<Session.User>
    var meals: seq<MealRecord>
    var tab: string
    var loading: bool

    constructor ()
      ensures users == [] && meals == [] && tab == "users" && loading
    {
      users := [];
      meals := [];
      tab := "users";
      loading := true;
    }

    method SetTab(t: string)
      modifies this
      ensures tab == t && users == old(users) && meals == old(meals) && loading == old(loading)
    {
      tab := t;
    }

    method BeginLoad() returns (endpoint: string)
      modifies this
      ensures loading && endpoint == UsersPath
      ensures users == old(users) && meals == old(meals) && tab == old(tab)
    {
      loading := true;
      endpoint := UsersPath;
    }

    /** After the two sequential awaits (`None` for a call that throws; the
        meals outcome is ignored when the users call already threw). Neither
        list is stored unless both calls resolve. */
    method FinishLoad(usersRes: Option<UsersPage>, mealsRes: Option<Option<seq<MealRecord>>>)
      modifies this
      ensures !loading && tab == old(tab)
      ensures usersRes.Some? && mealsRes.Some? ==>
                users == OrEmpty(usersRes.value.items) && meals == OrEmpty(mealsRes.value)
      ensures !(usersRes.Some? && mealsRes.Some?) ==> users == old(users) && meals == old(meals)
    {
      if usersRes.Some? && mealsRes.Some? {
        users := OrEmpty(usersRes.value.items);
        meals := OrEmpty(mealsRes.value);
      }
      loading := false;
    }

    /** `handleDeleteUser`: a declined confirmation makes no call; the user
        leaves the list only once the call succeeds. */
    method DeleteUser(userId: int, confirmed: bool, succeeded: bool)
      returns (call: Option<(string, ApiClient.HttpMethod)>)
      modifies this
      ensures call.Some? <==> confirmed
      ensures call.Some? ==> call.value == (UsersPath + "/" + IntText(userId), ApiClient.DELETE)
      ensures users == (if confirmed && succeeded then Without(old(users), UserId, userId) else old(users))
      ensures meals == old(meals) && tab == old(tab) && loading == old(loading)
    {
      if !confirmed {
        return None;
      }
      call := Some((UsersPath + "/" + IntText(userId), ApiClient.DELETE));
      if succeeded {
        users := Without(users, UserId, userId);
      }
    }

    /** `handleDeleteMeal`: as for users, through `deleteMeal`. */
    method DeleteMeal(mealId: int, confirmed: bool, succeeded: bool) returns (call: Option<int>)
      modifies this
      ensures call.Some? <==> confirmed
      ensures call.Some? ==> call.value == mealId
      ensures meals == (if confirmed && succeeded then Without(old(meals), MealId, mealId) else old(meals))
      ensures users == old(users) && tab == old(tab) && loading == old(loading)
    {
      if !confirmed {
        return None;
      }
      call := Some(mealId);
      if succeeded {
        meals := Without(meals, MealId, mealId);
      }
    }
  }
}
