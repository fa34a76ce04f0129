/**
 * The find-in-page controller `SearchBarController`: a small state machine
 * between the search editor, the status label, the previous/next/cancel
 * buttons and the engine's find API. Its own state is whether a search has
 * started and the last reported match position and total; the widgets' state
 * (editor text, status text, button enablement) is kept in fields as well,
 * and what it asks of the engine, the keyboard and its cancel listener is
 * appended to `effects`.
 */
module SearchBar {
  import opened Kotlin

  /** `EditorInfo.IME_ACTION_SEARCH` of the Android platform. */
  const IME_ACTION_SEARCH: int := 3

  /** The three buttons the controller listens to. */
  datatype Button = PrevButton | NextButton | CancelButton

  datatype Effect =
    | RequestFocus
    | ShowKeyboard
    | HideKeyboard
    | ClearMatches
    | FindAllAsync(query: string)
    | FindNext(forward: bool)
    /** `mListener.onCancelSearch()`. */
    | NotifyCancelSearch

  /** The key event of an editor action; the controller does not look into it. */
  datatype KeyEvent = KeyEvent(keyCode: int)

  /** Whether the "previous" button is enabled. */
  function PrevEnabled(query: Option<string>, started: bool, position: Int): bool {
    !IsEmpty(query) && (!started || position > 0)
  }

  /** Whether the "next" button is enabled; `total - 1` is Kotlin `Int` arithmetic. */
  function NextEnabled(query: Option<string>, started: bool, position: Int, total: Int): bool {
    !IsEmpty(query) && (!started || position < Wrap(total - 1))
  }

  /** The status label: "position+1/total" while there are matches, null otherwise. */
  function StatusText(position: Int, total: Int): Option<string> {
    if total > 0 then Some(IntToString(Wrap(position + 1)) + "/" + IntToString(total)) else None
  }

  /** With an empty query neither button is enabled, whatever the stored counts. */
  lemma EmptyQueryDisablesButtons(query: Option<string>, started: bool, position: Int, total: Int)
    requires IsEmpty(query)
    ensures !PrevEnabled(query, started, position) && !NextEnabled(query, started, position, total)
  {
  }

  /**
   * While a search is running, "previous" is enabled exactly when there is a
   * query and the position is past the first match, and "next" exactly when
   * there is a query and the position is before the last one.
   */
  lemma StartedButtons(query: Option<string>, position: Int, total: Int)
    requires total > INT_MIN
    ensures PrevEnabled(query, true, position) <==> !IsEmpty(query) && position > 0
    ensures NextEnabled(query, true, position, total) <==> !IsEmpty(query) && position < total - 1
  {
  }

  /** Before any search has started, both buttons follow the query alone. */
  lemma NotStartedButtons(query: Option<string>, position: Int, total: Int)
    ensures PrevEnabled(query, false, position) <==> !IsEmpty(query)
    ensures NextEnabled(query, false, position, total) <==> !IsEmpty(query)
  {
  }

  /**
   * A reader of status labels: the two numbers on either side of the one
   * '/', as a user reads "3/7".
   */
  function ParseStatus(s: string): Option<(int, int)> {
    var i := FindChar(s, '/', 0);
    if i == |s| then None
    else
      match (ParseInt(s[..i]), ParseInt(s[i + 1..]))
      case (Some(a), Some(b)) => Some((a, b))
      case _ => None
  }

  /**
   * The status label is shown exactly when there are matches, and then it
   * reads back as the 1-based position and the total.
   */
  lemma {:induction false} StatusTextReadsBack(position: Int, total: Int)
    ensures StatusText(position, total).Some? <==> total > 0
    ensures total > 0 ==> ParseStatus(StatusText(position, total).value) == Some((Wrap(position + 1), total as int))
  {
    if total > 0 {
      var a := IntToString(Wrap(position + 1));
      var b := IntToString(total);
      var s := a + "/" + b;
      assert s[|a|] == '/';
      forall j | 0 <= j < |a| ensures s[j] != '/' {
        assert s[j] == a[j] && a[j] in a;
      }
      assert FindChar(s, '/', 0) == |a|;
      assert s[..|a|] == a && s[|a| + 1..] == b;
      ParseIntToString(Wrap(position + 1));
      ParseIntToString(total);
    }
  }

  class SearchBarController {
    var hasStartedSearch: bool
    var currentResultPosition: Int
    var totalResultCount: Int
    /** The editor's text; null when the editor holds no `Editable`. */
    var editorText: Option<string>
    /** The status label's text. */
    var status: Option<string>
    var prevEnabled: bool
    var nextEnabled: bool
    var effects: seq<Effect>

    /** The widgets' initial state comes from the layout. */
    constructor (text: Option<string>, status0: Option<string>, prev0: bool, next0: bool)
      ensures !hasStartedSearch && currentResultPosition == 0 && totalResultCount == 0
      ensures editorText == text && status == status0 && prevEnabled == prev0 && nextEnabled == next0
      ensures effects == []
    {
      hasStartedSearch := false;
      currentResultPosition := 0;
      totalResultCount := 0;
      editorText := text;
      status := status0;
      prevEnabled, nextEnabled := prev0, next0;
      effects := [];
    }

    /** `onShow()`: focus the editor, forget any previous search, refresh the widgets. */
    method OnShow()
      modifies this
      ensures currentResultPosition == -1 && totalResultCount == -1 && !hasStartedSearch
      ensures status.None?
      ensures prevEnabled == !IsEmpty(editorText) && nextEnabled == !IsEmpty(editorText)
      ensures editorText == old(editorText)
      ensures effects == old(effects) + [RequestFocus, ShowKeyboard, ClearMatches]
    {
      effects := effects + [RequestFocus, ShowKeyboard];
      ClearSearchResults();
      UpdateNextAndPrevButtonEnabledState();
      UpdateStatusText();
    }

    /** `onCancel()`: clear the label and the highlights and tell the listener; the counters stay. */
    method OnCancel()
      modifies this`status, this`effects
      ensures status.None?
      ensures effects == old(effects) + [ClearMatches, NotifyCancelSearch]
    {
      status := None;
      effects := effects + [ClearMatches, NotifyCancelSearch];
    }

    /** `afterTextChanged(s)`: the editor now holds `s`; search for it and refresh the buttons. */
    method AfterTextChanged(s: string)
      modifies this
      ensures editorText == Some(s)
      ensures if s == "" then
                && currentResultPosition == -1 && totalResultCount == -1 && !hasStartedSearch
                && status.None?
                && effects == old(effects) + [ClearMatches]
              else
                && currentResultPosition == old(currentResultPosition)
                && totalResultCount == old(totalResultCount)
                && hasStartedSearch
                && status == StatusText(currentResultPosition, totalResultCount)
                && effects == old(effects) + [FindAllAsync(s)]
      ensures prevEnabled == PrevEnabled(editorText, hasStartedSearch, currentResultPosition)
      ensures nextEnabled == NextEnabled(editorText, hasStartedSearch, currentResultPosition, totalResultCount)
    {
      editorText := Some(s);
      StartSearch();
      UpdateNextAndPrevButtonEnabledState();
    }

    /**
     * `onEditorAction(view, actionId, event)`: the search key hides the
     * keyboard and searches; the buttons are left as they are. `event` is
     * declared non-null, so a null event fails Kotlin's parameter check on
     * entry (`ok` false) and nothing happens.
     */
    method OnEditorAction(actionId: int, event: Option<KeyEvent>) returns (handled: bool, ok: bool)
      modifies this
      ensures ok <==> event.Some?
      ensures handled <==> ok && actionId == IME_ACTION_SEARCH
      ensures editorText == old(editorText) && prevEnabled == old(prevEnabled) && nextEnabled == old(nextEnabled)
      ensures !handled ==> effects == old(effects) && status == old(status)
                           && hasStartedSearch == old(hasStartedSearch)
                           && currentResultPosition == old(currentResultPosition)
                           && totalResultCount == old(totalResultCount)
      ensures handled ==> SearchStarted(old(effects) + [HideKeyboard], old(currentResultPosition), old(totalResultCount))
    {
      if event.None? {
        return false, false;
      }
      if actionId == IME_ACTION_SEARCH {
        effects := effects + [HideKeyboard];
        StartSearch();
        return true, true;
      }
      return false, true;
    }

    /** `onFindResultReceived(...)`: store the engine's numbers as they come, then refresh. */
    method OnFindResultReceived(activeMatchOrdinal: Int, numberOfMatches: Int, isDoneCounting: bool)
      modifies this
      ensures currentResultPosition == activeMatchOrdinal && totalResultCount == numberOfMatches
      ensures hasStartedSearch == old(hasStartedSearch) && editorText == old(editorText)
      ensures prevEnabled == PrevEnabled(editorText, hasStartedSearch, activeMatchOrdinal)
      ensures nextEnabled == NextEnabled(editorText, hasStartedSearch, activeMatchOrdinal, numberOfMatches)
      ensures status == StatusText(activeMatchOrdinal, numberOfMatches)
      ensures effects == old(effects)
    {
      currentResultPosition := activeMatchOrdinal;
      totalResultCount := numberOfMatches;
      UpdateNextAndPrevButtonEnabledState();
      UpdateStatusText();
    }

    /** `onClick(view)`: cancel, or start a search, or step through the matches. */
    method OnClick(view: Button)
      modifies this
      ensures editorText == old(editorText) && prevEnabled == old(prevEnabled) && nextEnabled == old(nextEnabled)
      ensures view == CancelButton ==>
                && status.None?
                && effects == old(effects) + [HideKeyboard, ClearMatches, NotifyCancelSearch]
                && hasStartedSearch == old(hasStartedSearch)
                && currentResultPosition == old(currentResultPosition)
                && totalResultCount == old(totalResultCount)
      ensures view != CancelButton && !old(hasStartedSearch) ==>
                SearchStarted(old(effects) + [HideKeyboard], old(currentResultPosition), old(totalResultCount))
      ensures view != CancelButton && old(hasStartedSearch) ==>
                && effects == old(effects) + [HideKeyboard, FindNext(view == NextButton)]
                && status == old(status) && hasStartedSearch
                && currentResultPosition == old(currentResultPosition)
                && totalResultCount == old(totalResultCount)
    {
      effects := effects + [HideKeyboard];
      if view == CancelButton {
        OnCancel();
      } else if !hasStartedSearch {
        StartSearch();
      } else {
        effects := effects + [FindNext(view == NextButton)];
      }
    }

    /**
     * The state `startSearch()` leaves, from the effects and counters it
     * started with: an empty query resets everything and finds nothing; a
     * query issues one find and marks the search started, the label still
     * showing the previous counts.
     */
    ghost predicate SearchStarted(effects0: seq<Effect>, position0: Int, total0: Int)
      reads this
    {
      if IsEmpty(editorText) then
        && currentResultPosition == -1 && totalResultCount == -1 && !hasStartedSearch
        && status.None?
        && effects == effects0 + [ClearMatches]
      else
        && currentResultPosition == position0 && totalResultCount == total0
        && hasStartedSearch
        && status == StatusText(position0, total0)
        && effects == effects0 + [FindAllAsync(editorText.value)]
    }

    /** `startSearch()`. */
    method StartSearch()
      modifies this
      ensures SearchStarted(old(effects), old(currentResultPosition), old(totalResultCount))
      ensures editorText == old(editorText) && prevEnabled == old(prevEnabled) && nextEnabled == old(nextEnabled)
    {
      var query := editorText;
      if IsEmpty(query) {
        ClearSearchResults();
        status := None;
      } else {
        effects := effects + [FindAllAsync(query.value)];
        hasStartedSearch := true;
      }
      UpdateStatusText();
    }

    /** `clearSearchResults()`. */
    method ClearSearchResults()
      modifies this`currentResultPosition, this`totalResultCount, this`hasStartedSearch, this`effects
      ensures currentResultPosition == -1 && totalResultCount == -1 && !hasStartedSearch
      ensures effects == old(effects) + [ClearMatches]
    {
      currentResultPosition := -1;
      totalResultCount := -1;
      effects := effects + [ClearMatches];
      hasStartedSearch := false;
    }

    /** `updateNextAndPrevButtonEnabledState()`. */
    method UpdateNextAndPrevButtonEnabledState()
      modifies this`prevEnabled, this`nextEnabled
      ensures prevEnabled == PrevEnabled(editorText, hasStartedSearch, currentResultPosition)
      ensures nextEnabled == NextEnabled(editorText, hasStartedSearch, currentResultPosition, totalResultCount)
    {
      prevEnabled := PrevEnabled(editorText, hasStartedSearch, currentResultPosition);
      nextEnabled := NextEnabled(editorText, hasStartedSearch, currentResultPosition, totalResultCount);
    }

    /** `updateStatusText()`. */
    method UpdateStatusText()
      modifies this`status
      ensures status == StatusText(currentResultPosition, totalResultCount)
    {
      status := StatusText(currentResultPosition, totalResultCount);
    }
  }
}
