/**
 * The browser storage behind the services: the stored dream list, theme list and
 * username, as fields of one object. Every write the source makes through its storage
 * wrappers may fail; its outcome is the parameter `ok` (true when the browser accepted
 * the write), and a failed write leaves the stored value as it was.
 */
module Storage {
  import opened Wrappers
  import opened Results

  class Store {
    var dreams: seq<Dream>
    var themes: seq<string>
    var username: Option<string>

    /** An empty browser storage. */
    constructor ()
      ensures dreams == [] && themes == [] && username == None
    {
      dreams := [];
      themes := [];
      username := None;
    }

    /** `dreamStorage.save(list)`. */
    method SaveDreams(list: seq<Dream>, ok: bool) returns (saved: bool)
      modifies this
      ensures saved == ok
      ensures dreams == (if ok then list else old(dreams))
      ensures themes == old(themes) && username == old(username)
    {
      if ok {
        dreams := list;
      }
      saved := ok;
    }

    /** `dreamStorage.clear()`: afterwards `load()` finds nothing, which the services read as `[]`. */
    method ClearDreams(ok: bool) returns (cleared: bool)
      modifies this
      ensures cleared == ok
      ensures dreams == (if ok then [] else old(dreams))
      ensures themes == old(themes) && username == old(username)
    {
      if ok {
        dreams := [];
      }
      cleared := ok;
    }

    /** `themeStorage.save(list)`. */
    method SaveThemes(list: seq<string>, ok: bool) returns (saved: bool)
      modifies this
      ensures saved == ok
      ensures themes == (if ok then list else old(themes))
      ensures dreams == old(dreams) && username == old(username)
    {
      if ok {
        themes := list;
      }
      saved := ok;
    }

    /** `themeStorage.clear()`. */
    method ClearThemes(ok: bool) returns (cleared: bool)
      modifies this
      ensures cleared == ok
      ensures themes == (if ok then [] else old(themes))
      ensures dreams == old(dreams) && username == old(username)
    {
      if ok {
        themes := [];
      }
      cleared := ok;
    }

    /** `userStorage.save(name)`. */
    method SaveUsername(name: string, ok: bool) returns (saved: bool)
      modifies this
      ensures saved == ok
      ensures username == (if ok then Some(name) else old(username))
      ensures dreams == old(dreams) && themes == old(themes)
    {
      if ok {
        username := Some(name);
      }
      saved := ok;
    }

    /** `userStorage.clear()`. */
    method ClearUsername(ok: bool) returns (cleared: bool)
      modifies this
      ensures cleared == ok
      ensures username == (if ok then None else old(username))
      ensures dreams == old(dreams) && themes == old(themes)
    {
      if ok {
        username := None;
      }
      cleared := ok;
    }

    /** `setUsername(name)` of src/utils/storage.ts: a direct `localStorage.setItem` whose
        outcome nobody checks. */
    method SetUsername(name: string)
      modifies this
      ensures username == Some(name)
      ensures dreams == old(dreams) && themes == old(themes)
    {
      username := Some(name);
    }
  }
}
