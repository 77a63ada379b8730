/**
 * src/services/dreamService.ts: the stored dream list. Creating checks the form and a
 * case-insensitive duplicate name, then appends a dream with a fresh id; deleting removes
 * the first dream with an id; checking flips `isChecked` of the first dream with an id.
 * Every change is a load of the list, an update of that copy and a save that may fail.
 */
module DreamService {
  import opened Wrappers
  import opened Text
  import opened Sanitiser
  import opened Results
  import opened ThemeValidation
  import opened DreamValidation
  import opened IdGenerator
  import opened Storage

  const DuplicateDreamMessage: string := "Dream already exists."
  const SaveDreamFailedMessage: string := "Failed to save dream."

  /** The test dreamExists applies to each stored dream: the names agree ignoring case,
      and so do the themes when a non-empty theme is given. */
  predicate Matches(d: Dream, name: string, theme: Option<string>) {
    Lower(d.name) == Lower(name)
    && (theme.None? || theme.value == [] || Lower(d.theme) == Lower(theme.value))
  }

  /** `dreamList.some(...)` in dreamExists. */
  predicate AnyMatches(dreams: seq<Dream>, name: string, theme: Option<string>) {
    dreams != [] && (Matches(dreams[0], name, theme) || AnyMatches(dreams[1..], name, theme))
  }

  /** The scan finds a match exactly when some stored dream matches. */
  lemma {:induction false} AnyMatchesAt(dreams: seq<Dream>, name: string, theme: Option<string>)
    ensures AnyMatches(dreams, name, theme) <==> exists i :: 0 <= i < |dreams| && Matches(dreams[i], name, theme)
  {
    if dreams != [] {
      AnyMatchesAt(dreams[1..], name, theme);
      if !Matches(dreams[0], name, theme) && exists i :: 0 <= i < |dreams| && Matches(dreams[i], name, theme) {
        var i :| 0 <= i < |dreams| && Matches(dreams[i], name, theme);
        assert dreams[1..][i - 1] == dreams[i];
      }
    }
  }

  /** The name comparison ignores case, and a theme narrows the search only when given:
      any dream matching a name and theme matches the name alone. */
  lemma {:induction false} DreamExistsCaseInsensitive(dreams: seq<Dream>, name: string, other: string, theme: string)
    requires Lower(name) == Lower(other)
    ensures AnyMatches(dreams, name, None) == AnyMatches(dreams, other, None)
    ensures AnyMatches(dreams, name, Some(theme)) ==> AnyMatches(dreams, name, None)
    ensures AnyMatches(dreams, name, Some("")) == AnyMatches(dreams, name, None)
  {
    if dreams != [] {
      DreamExistsCaseInsensitive(dreams[1..], name, other, theme);
    }
  }

  /** The ids of a list, in order. */
  function Ids(dreams: seq<Dream>): (r: seq<int>)
    ensures |r| == |dreams|
    ensures forall i :: 0 <= i < |dreams| ==> r[i] == dreams[i].id
  {
    if dreams == [] then [] else [dreams[0].id] + Ids(dreams[1..])
  }

  /** `generateId(undefined, dreamList)`: above every stored id, and at least 1. */
  function NextId(dreams: seq<Dream>): (r: int)
    ensures r >= 1
    ensures forall i :: 0 <= i < |dreams| ==> dreams[i].id < r
  {
    var ids := Ids(dreams);
    var g := GenerateId(None, Some(ids));
    assert forall i :: 0 <= i < |dreams| ==> ids[i] == dreams[i].id;
    g.value
  }

  /** No two stored dreams share an id. */
  predicate DistinctIds(dreams: seq<Dream>) {
    forall i, j :: 0 <= i < j < |dreams| ==> dreams[i].id != dreams[j].id
  }

  /** Appending a dream whose id is above every stored id keeps the ids distinct. */
  lemma {:induction false} AppendFreshKeepsDistinct(dreams: seq<Dream>, d: Dream)
    requires DistinctIds(dreams)
    requires forall i :: 0 <= i < |dreams| ==> dreams[i].id < d.id
    ensures DistinctIds(dreams + [d])
  {
    forall i, j | 0 <= i < j < |dreams| + 1
      ensures (dreams + [d])[i].id != (dreams + [d])[j].id
    {
      if j < |dreams| {
        assert (dreams + [d])[j] == dreams[j];
      }
    }
  }

  /** What validateNewDream returns, given the form validator's result on the input and the
      stored list: a valid form whose raw name is already stored (ignoring case, in any theme)
      gets the duplicate message instead and loses its suggestions; otherwise the form's
      result is kept, its missing suggestions copied as an empty record. */
  function NewDreamResult(form: ValidationResult<Record>, dreams: seq<Dream>, name: string): (r: ValidationResult<Record>)
    ensures r.isValid <==> r.errors == map[]
    ensures WellFormed(form) ==> (r.isValid <==> form.isValid && !AnyMatches(dreams, name, None))
    ensures form.isValid && AnyMatches(dreams, name, None) ==>
      r.errors == form.errors[DreamField := DuplicateDreamMessage] && r.suggestion.None?
    ensures !(form.isValid && AnyMatches(dreams, name, None)) ==> r.errors == form.errors && r.suggestion.Some?
  {
    var duplicate := form.isValid && AnyMatches(dreams, name, None);
    var errors := if duplicate then form.errors[DreamField := DuplicateDreamMessage] else form.errors;
    assert duplicate ==> DreamField in errors;
    var suggestion := if duplicate then None else Some(if form.suggestion.Some? then form.suggestion.value else map[]);
    ValidationResult(errors == map[], errors, suggestion)
  }

  /** validateNewDream against the stored list. */
  method ValidateNewDream(store: Store, name: string, theme: string) returns (r: ValidationResult<Record>)
    ensures r == NewDreamResult(DreamFormResult(name, theme), store.dreams, name)
  {
    var validation := ValidateDreamForm(name, theme);
    var errors := validation.errors;
    var suggestions: Option<Record> := Some(if validation.suggestion.Some? then validation.suggestion.value else map[]);
    if validation.isValid && AnyMatches(store.dreams, name, None) {
      errors := errors[DreamField := DuplicateDreamMessage];
      suggestions := None;
    }
    r := ValidationResult(|errors| == 0, errors, suggestions);
  }

  /** A new dream is accepted exactly when the form passes (the sanitiser leaves the name
      and the theme alone and the theme is not the placeholder) and no stored dream has the
      same name ignoring case. A refused valid form carries only the duplicate message. */
  lemma {:induction false} NewDreamAccepted(name: string, theme: string, dreams: seq<Dream>)
    ensures var r := NewDreamResult(DreamFormResult(name, theme), dreams, name);
      r.isValid <==>
        Sanitise(name).isSafe && Sanitise(theme).isSafe && theme != PromptOption && !AnyMatches(dreams, name, None)
    ensures var form := DreamFormResult(name, theme);
      form.isValid && AnyMatches(dreams, name, None) ==>
        NewDreamResult(form, dreams, name).errors == map[DreamField := DuplicateDreamMessage]
  {
    var form := DreamFormResult(name, theme);
    DreamFormAccepted(name, theme);
    if form.isValid && AnyMatches(dreams, name, None) {
      assert DreamField in NewDreamResult(form, dreams, name).errors;
    }
  }

  /** The dream createDream builds: the next id, the raw name and theme, and `isChecked`
      defaulting to false. */
  function NewDream(dreams: seq<Dream>, name: string, theme: string, isChecked: Option<bool>): Dream {
    Dream(NextId(dreams), name, theme, if isChecked.Some? then isChecked.value else false)
  }

  /** createDream. A refused input or a failed save leaves the stored list as it was; a
      successful one appends the new dream. Stored ids stay distinct. */
  method CreateDream(store: Store, name: string, theme: string, isChecked: Option<bool>, saveOk: bool)
    returns (r: CreateResult<Record, Dream>)
    modifies store
    ensures var v := NewDreamResult(DreamFormResult(name, theme), old(store.dreams), name);
      var d := NewDream(old(store.dreams), name, theme, isChecked);
      && (!v.isValid ==> r == CreateResult(false, v.errors, v.suggestion, None) && store.dreams == old(store.dreams))
      && (v.isValid && saveOk ==> r == CreateResult(true, map[], None, Some(d)) && store.dreams == old(store.dreams) + [d])
      && (v.isValid && !saveOk ==>
            r == CreateResult(false, map[GeneralField := SaveDreamFailedMessage], None, None)
            && store.dreams == old(store.dreams))
    ensures store.themes == old(store.themes) && store.username == old(store.username)
    ensures DistinctIds(old(store.dreams)) ==> DistinctIds(store.dreams)
  {
    var validation := ValidateNewDream(store, name, theme);
    if !validation.isValid {
      return CreateResult(validation.isValid, validation.errors, validation.suggestion, None);
    }
    var dreamList := store.dreams;
    var newDream := Dream(NextId(dreamList), name, theme, if isChecked.Some? then isChecked.value else false);
    dreamList := dreamList + [newDream];
    if DistinctIds(store.dreams) {
      AppendFreshKeepsDistinct(store.dreams, newDream);
    }
    var saveSuccess := store.SaveDreams(dreamList, saveOk);
    if !saveSuccess {
      return CreateResult(false, map[GeneralField := SaveDreamFailedMessage], None, None);
    }
    r := CreateResult(true, map[], None, Some(newDream));
  }

  /** `dreamList.findIndex((dream) => dream.id === id)`: the first position holding `id`. */
  function IndexOfId(dreams: seq<Dream>, id: int): (r: Option<nat>)
    ensures r.Some? ==> r.value < |dreams| && dreams[r.value].id == id
    ensures r.Some? ==> forall j :: 0 <= j < r.value ==> dreams[j].id != id
    ensures r.None? ==> forall j :: 0 <= j < |dreams| ==> dreams[j].id != id
  {
    if dreams == [] then None
    else if dreams[0].id == id then Some(0)
    else
      var rest := IndexOfId(dreams[1..], id);
      assert forall j :: 1 <= j < |dreams| ==> dreams[j] == dreams[1..][j - 1];
      if rest.Some? then Some(rest.value + 1) else None
  }

  /** deleteDream. An absent id, or a failed save, leaves the list as it was; otherwise the
      first dream with the id is removed and the others keep their order. */
  method DeleteDream(store: Store, id: int, saveOk: bool) returns (ok: bool)
    modifies store
    ensures var i := IndexOfId(old(store.dreams), id);
      && ok == (i.Some? && saveOk)
      && store.dreams == (if ok then old(store.dreams)[..i.value] + old(store.dreams)[i.value + 1..] else old(store.dreams))
    ensures store.themes == old(store.themes) && store.username == old(store.username)
  {
    var dreamList := store.dreams;
    var index := IndexOfId(dreamList, id);
    if index.None? {
      return false;
    }
    dreamList := dreamList[..index.value] + dreamList[index.value + 1..];
    ok := store.SaveDreams(dreamList, saveOk);
  }

  /** With distinct ids, deleting a present id leaves no dream with it, and the ids stay
      distinct. */
  lemma {:induction false} DeleteRemovesId(dreams: seq<Dream>, id: int)
    requires DistinctIds(dreams)
    requires IndexOfId(dreams, id).Some?
    ensures var i := IndexOfId(dreams, id).value;
      var rest := dreams[..i] + dreams[i + 1..];
      DistinctIds(rest) && forall k :: 0 <= k < |rest| ==> rest[k].id != id
  {
    var i := IndexOfId(dreams, id).value;
    var rest := dreams[..i] + dreams[i + 1..];
    assert forall k :: 0 <= k < i ==> rest[k] == dreams[k];
    assert forall k :: i <= k < |rest| ==> rest[k] == dreams[k + 1];
  }

  /** updateDreamChecked. An absent id, or a failed save, leaves the list as it was;
      otherwise only the first dream with the id changes, and only its `isChecked`. */
  method UpdateDreamChecked(store: Store, id: int, isChecked: bool, saveOk: bool) returns (ok: bool)
    modifies store
    ensures var i := IndexOfId(old(store.dreams), id);
      && ok == (i.Some? && saveOk)
      && store.dreams == (if ok then old(store.dreams)[i.value := old(store.dreams)[i.value].(isChecked := isChecked)]
                          else old(store.dreams))
    ensures store.themes == old(store.themes) && store.username == old(store.username)
  {
    var dreamList := store.dreams;
    var index := IndexOfId(dreamList, id);
    if index.None? {
      return false;
    }
    var dream := dreamList[index.value];
    dreamList := dreamList[index.value := dream.(isChecked := isChecked)];
    ok := store.SaveDreams(dreamList, saveOk);
  }

  /** Flipping `isChecked` keeps every id, so distinct ids stay distinct. */
  lemma {:induction false} UpdateKeepsIds(dreams: seq<Dream>, i: nat, isChecked: bool)
    requires i < |dreams|
    ensures Ids(dreams[i := dreams[i].(isChecked := isChecked)]) == Ids(dreams)
    ensures DistinctIds(dreams) ==> DistinctIds(dreams[i := dreams[i].(isChecked := isChecked)])
  {
    var updated := dreams[i := dreams[i].(isChecked := isChecked)];
    assert forall k :: 0 <= k < |dreams| ==> updated[k].id == dreams[k].id;
  }

  /** clearDreams. */
  method ClearDreams(store: Store, clearOk: bool) returns (ok: bool)
    modifies store
    ensures ok == clearOk
    ensures store.dreams == (if clearOk then [] else old(store.dreams))
    ensures store.themes == old(store.themes) && store.username == old(store.username)
  {
    ok := store.ClearDreams(clearOk);
  }
}
