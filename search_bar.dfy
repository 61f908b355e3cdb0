/** `components/SearchBar.tsx`: the query field and its submit guard. */
module SearchBar {
  import opened Wrappers
  import opened JsString

  class SearchBar {
    /** The text in the input; every change overwrites it. */
    var query: string

    constructor ()
      ensures query == ""
    {
      query := "";
    }

    /** `onChange={(e) => setQuery(e.target.value)}`. */
    method Change(value: string)
      modifies this
      ensures query == value
    {
      query := value;
    }

    /** `handleSubmit`: the trimmed query goes to `onSearch` unless it is empty.
      * `searched` is the argument `onSearch` receives, `None` when it is not called. */
    method Submit() returns (searched: Option<string>)
      ensures searched.Some? <==> !AllSpace(query)
      ensures searched.Some? ==> searched.value == Trim(query) && searched.value != ""
      ensures searched.Some? ==> !IsSpace(searched.value[0]) && !IsSpace(searched.value[|searched.value| - 1])
    {
      TrimEmptyIffAllSpace(query);
      var _, _ := TrimShape(query);
      var trimmed := Trim(query);
      if trimmed != "" {
        searched := Some(trimmed);
      } else {
        searched := None;
      }
    }

    /** The submit button: `disabled={isLoading || !query.trim()}`. */
    predicate SubmitDisabled(isLoading: bool)
      reads this
      ensures SubmitDisabled(isLoading) <==> isLoading || AllSpace(query)
    {
      TrimEmptyIffAllSpace(query);
      isLoading || Trim(query) == ""
    }

    /** The input: `disabled={isLoading}`. */
    predicate InputDisabled(isLoading: bool)
      reads this
    {
      isLoading
    }
  }

  /** Typing and then submitting searches for the typed text without its
    * surrounding white space, and submitting it again searches for the same text. */
  method TypeThenSubmit(typed: string) returns (first: Option<string>, second: Option<string>)
    ensures first == second
    ensures first.Some? <==> !AllSpace(typed)
    ensures first.Some? ==> first.value == Trim(typed)
  {
    var bar := new SearchBar();
    bar.Change(typed);
    first := bar.Submit();
    second := bar.Submit();
  }
}
