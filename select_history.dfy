/**
 * The history page: a list of reading-progress records, a selection, and a
 * confirm dialog guarding deletion. Its key handler changes the selection,
 * the dialog and the records in place and pushes routes on the navigator;
 * its footer and its shortcut list are plain functions of its state.
 *
 * What `ConfirmState` does to its yes/no choice and how `ListState` moves
 * the selection belong to libraries outside this model: both are passed in
 * as operations (`ConfirmOps`, `ListOps`) and never interpreted.
 */
module SelectHistoryPage {
  import opened Wrappers
  import opened Keys
  import opened History

  const SELECT_FIRST := "请选择历史记录"
  const BOOK_SOURCE_NOT_FOUND := "book source not found"
  /** Rows a list entry takes on screen. */
  const ITEM_HEIGHT := 5

  // ---------------------------------------------------------------------
  // The confirm dialog and the list selection

  /** The dialog: whether it is showing, and its choice (opaque). */
  datatype ConfirmState<C> = ConfirmState(show: bool, choice: C)

  /** What `confirm`, `toggle`, `is_confirm`, `show` and `hide` do to the choice. */
  datatype ConfirmOps<!C> = ConfirmOps(
    confirm: C -> C,
    toggle: C -> C,
    isConfirm: C -> bool,
    onShow: C -> C,
    onHide: C -> C)

  function Show<C>(ops: ConfirmOps<C>, d: ConfirmState<C>): ConfirmState<C> {
    ConfirmState(true, ops.onShow(d.choice))
  }

  function Hide<C>(ops: ConfirmOps<C>, d: ConfirmState<C>): ConfirmState<C> {
    ConfirmState(false, ops.onHide(d.choice))
  }

  function Confirm<C>(ops: ConfirmOps<C>, d: ConfirmState<C>): ConfirmState<C> {
    d.(choice := ops.confirm(d.choice))
  }

  function Toggle<C>(ops: ConfirmOps<C>, d: ConfirmState<C>): ConfirmState<C> {
    d.(choice := ops.toggle(d.choice))
  }

  /** `ListState::next` and `ListState::previous` on the selection. */
  datatype ListOps = ListOps(next: Option<nat> -> Option<nat>, previous: Option<nat> -> Option<nat>)

  predicate InRange(selected: Option<nat>, len: nat) {
    selected.Some? ==> selected.value < len
  }

  // ---------------------------------------------------------------------
  // Page state, collaborators and answers

  /** The page pushed on the navigator, for the novel stored under a history key. */
  datatype PageRoute = ReadNovelRoute(path: string) | BookDetailRoute(key: string)

  /**
   * Opening a network novel: its cache key may not parse, its book source
   * may be missing from the configured sources, or the source may not build.
   */
  datatype NetworkOpen = BadCache(msg: string) | NoBookSource | BadBookSource(msg: string) | Opened

  /**
   * The page's collaborators: `LocalNovel::from_path`, the network lookup,
   * `Navigator::push` and `History::save` (given the records to write).
   */
  datatype PageIo = PageIo(
    openLocal: string -> Outcome,
    openNetwork: string -> NetworkOpen,
    push: PageRoute -> Outcome,
    save: seq<Entry> -> Outcome)

  /**
   * `Ok(None)`, `Ok(Some(key))` and `Err(msg)`; `Panicked` is the handler
   * panicking on an index past the end of the records, with the page left
   * as it was at that point.
   */
  datatype KeyOutcome = Consumed | Unconsumed(key: Key) | Failed(msg: string) | Panicked

  /** Everything the key handler reads or changes; `pushed` is what was pushed on the navigator. */
  datatype PageState<C> = PageState(
    selected: Option<nat>,
    confirm: ConfirmState<C>,
    histories: seq<Entry>,
    pushed: seq<PageRoute>)

  datatype KeyReply<C> = KeyReply(state: PageState<C>, outcome: KeyOutcome)

  /** The selection, if any, names a record. */
  predicate WellFormed<C>(s: PageState<C>) {
    InRange(s.selected, |s.histories|)
  }

  // ---------------------------------------------------------------------
  // The key handler

  /** Pushes `route` on the navigator; a failed push is the answer. */
  function Push<C>(s: PageState<C>, route: PageRoute, io: PageIo): KeyReply<C> {
    match io.push(route)
    case Err(msg) => KeyReply(s, Failed(msg))
    case Ok => KeyReply(s.(pushed := s.pushed + [route]), Consumed)
  }

  /**
   * `l`, Right or Enter with the dialog hidden: open the selected record.
   * A selection past the end of the records panics on `histories[index]`.
   */
  function OpenSelected<C>(s: PageState<C>, io: PageIo): KeyReply<C> {
    match s.selected
    case None => KeyReply(s, Failed(SELECT_FIRST))
    case Some(i) =>
      if i >= |s.histories| then KeyReply(s, Panicked)
      else
        var (path, item) := s.histories[i];
        match item
        case Local(_, _) =>
          (match io.openLocal(path)
           case Err(msg) => KeyReply(s, Failed(msg))
           case Ok => Push(s, ReadNovelRoute(path), io))
        case Network(_, _, _) =>
          (match io.openNetwork(path)
           case BadCache(msg) => KeyReply(s, Failed(msg))
           case NoBookSource => KeyReply(s, Failed(BOOK_SOURCE_NOT_FOUND))
           case BadBookSource(msg) => KeyReply(s, Failed(msg))
           case Opened => Push(s, BookDetailRoute(path), io))
  }

  /**
   * Enter with the dialog showing, as the source has it: a confirmed
   * deletion removes the record and saves; when the save fails the error
   * is returned before the selection is cleared and the dialog hidden.
   * Removing at an index past the end panics.
   */
  function ConfirmEnterAsWritten<C>(s: PageState<C>, ops: ConfirmOps<C>, io: PageIo): (r: KeyReply<C>)
    ensures r.state.pushed == s.pushed && !r.outcome.Unconsumed?
    ensures r.outcome == Panicked <==>
      s.selected.Some? && ops.isConfirm(s.confirm.choice) && s.selected.value >= |s.histories|
    ensures r.outcome.Failed? ==>
      r.state.selected == s.selected && r.state.confirm == s.confirm && |r.state.histories| + 1 == |s.histories|
    ensures r.outcome == Consumed ==> !r.state.confirm.show
    ensures r.outcome == Consumed && |r.state.histories| < |s.histories| ==> r.state.selected == None
  {
    if s.selected.Some? && ops.isConfirm(s.confirm.choice) then
      if s.selected.value >= |s.histories| then KeyReply(s, Panicked)
      else
        var remaining := RemoveIndex(s.histories, s.selected.value);
        match io.save(remaining)
        case Err(msg) => KeyReply(s.(histories := remaining), Failed(msg))
        case Ok => KeyReply(s.(histories := remaining, selected := None, confirm := Hide(ops, s.confirm)), Consumed)
    else
      KeyReply(s.(confirm := Hide(ops, s.confirm)), Consumed)
  }

  /**
   * Enter with the dialog showing, with the selection cleared as soon as
   * the record is removed, so that a failed save cannot leave it naming a
   * record that is gone.
   */
  function ConfirmEnter<C>(s: PageState<C>, ops: ConfirmOps<C>, io: PageIo): (r: KeyReply<C>)
    requires WellFormed(s)
    ensures WellFormed(r.state)
  {
    if s.selected.Some? && ops.isConfirm(s.confirm.choice) then
      var remaining := RemoveIndex(s.histories, s.selected.value);
      match io.save(remaining)
      case Err(msg) => KeyReply(s.(histories := remaining, selected := None), Failed(msg))
      case Ok => KeyReply(s.(histories := remaining, selected := None, confirm := Hide(ops, s.confirm)), Consumed)
    else
      KeyReply(s.(confirm := Hide(ops, s.confirm)), Consumed)
  }

  /**
   * A key press while the dialog is showing; `corrected` picks the Enter
   * branch that clears the selection before saving.
   */
  function DialogKey<C>(s: PageState<C>, key: Key, ops: ConfirmOps<C>, io: PageIo, corrected: bool): KeyReply<C>
    requires corrected ==> WellFormed(s)
  {
    var code := key.code;
    if code == Char('y') then KeyReply(s.(confirm := Confirm(ops, s.confirm)), Consumed)
    else if code == Left || code == Right || code == Char('h') || code == Char('l') then
      KeyReply(s.(confirm := Toggle(ops, s.confirm)), Consumed)
    else if code == Enter then
      (if corrected then ConfirmEnter(s, ops, io) else ConfirmEnterAsWritten(s, ops, io))
    else if code == Char('n') then KeyReply(s.(confirm := Hide(ops, s.confirm)), Consumed)
    else KeyReply(s, Unconsumed(key))
  }

  /** A key press while the dialog is hidden. */
  function ListKey<C>(s: PageState<C>, key: Key, ops: ConfirmOps<C>, list: ListOps, io: PageIo): KeyReply<C> {
    var code := key.code;
    if code == Char('h') || code == Left then KeyReply(s.(selected := None), Consumed)
    else if code == Char('j') || code == Down then KeyReply(s.(selected := list.next(s.selected)), Consumed)
    else if code == Char('k') || code == Up then KeyReply(s.(selected := list.previous(s.selected)), Consumed)
    else if code == Char('l') || code == Right || code == Enter then OpenSelected(s, io)
    else if code == Char('d') then
      (if s.selected.None? then KeyReply(s, Failed(SELECT_FIRST))
       else KeyReply(s.(confirm := Show(ops, s.confirm)), Consumed))
    else KeyReply(s, Unconsumed(key))
  }

  /**
   * `SelectHistory::handle_key_event` as a function of the page state, in
   * the source's order. A key handed back changes nothing, a panic leaves
   * the page as it was, only a confirmed deletion changes the records and
   * only an opened record is pushed, one page at a time.
   */
  function KeyStep<C>(s: PageState<C>, key: Key, ops: ConfirmOps<C>, list: ListOps, io: PageIo): (r: KeyReply<C>)
    ensures r.outcome.Unconsumed? ==> r == KeyReply(s, Unconsumed(key))
    ensures r.outcome == Panicked ==> r.state == s
    ensures r.state.histories == s.histories
      || (s.confirm.show && s.selected.Some? && s.selected.value < |s.histories|
          && r.state.histories == RemoveIndex(s.histories, s.selected.value))
    ensures r.state.pushed == s.pushed
      || (r.outcome == Consumed && !s.confirm.show
          && |r.state.pushed| == |s.pushed| + 1 && r.state.pushed[..|s.pushed|] == s.pushed)
  {
    if key.kind != Press then KeyReply(s, Unconsumed(key))
    else if s.confirm.show then DialogKey(s, key, ops, io, false)
    else ListKey(s, key, ops, list, io)
  }

  /**
   * The key handler with the corrected Enter branch. From a selection inside
   * the list it never panics.
   */
  function KeyStepFixed<C>(s: PageState<C>, key: Key, ops: ConfirmOps<C>, list: ListOps, io: PageIo): (r: KeyReply<C>)
    requires WellFormed(s)
    ensures r.outcome != Panicked
  {
    if key.kind != Press then KeyReply(s, Unconsumed(key))
    else if s.confirm.show then DialogKey(s, key, ops, io, true)
    else ListKey(s, key, ops, list, io)
  }

  // ---------------------------------------------------------------------
  // The footer and the shortcut list

  /** What `render` draws: the empty placeholder, or the list with its `current/total` footer and maybe a scrollbar. */
  datatype Footer = EmptyPlaceholder | Listing(position: nat, total: nat, scrollbar: bool)

  /** `render`'s drawing decisions for `len` records, the selection and the inner height of the frame. */
  function RenderPlan(len: nat, selected: Option<nat>, height: nat): (f: Footer)
    ensures f.EmptyPlaceholder? <==> len == 0
    ensures f.Listing? ==> f.total == len && 1 <= f.position
  {
    if len == 0 then EmptyPlaceholder
    else Listing(selected.GetOr(0) + 1, len, len * ITEM_HEIGHT > height)
  }

  /** `key_shortcut_info`: (description, keys) pairs for the dialog, or for the list. */
  function ShortcutInfo(show: bool): seq<(string, string)> {
    if show then
      [("确认删除", "Y"),
       ("取消删除", "N"),
       ("切换确定/取消", "H / ◄ / L / ► "),
       ("确认选中", "Enter"),
       ("切换到选择文件", "Tab")]
    else
      [("选择下一个", "J / ▼"),
       ("选择上一个", "K / ▲"),
       ("取消选择", "H / ◄"),
       ("确认选择", "L / ► / Enter"),
       ("删除选中的历史记录", "D"),
       ("切换到选择文件", "Tab")]
  }

  /**
   * The keys each shortcut list advertises, except Tab, which is handed back
   * to the enclosing page.
   */
  function HintedKeys(show: bool): set<KeyCode> {
    if show then {Char('y'), Char('n'), Char('h'), Left, Char('l'), Right, Enter}
    else {Char('j'), Down, Char('k'), Up, Char('h'), Left, Char('l'), Right, Enter, Char('d')}
  }

  // ---------------------------------------------------------------------
  // The page object

  class SelectHistory<C> {
    var selected: Option<nat>
    var confirm: ConfirmState<C>
    var histories: seq<Entry>
    var pushed: seq<PageRoute>
    const confirmOps: ConfirmOps<C>
    const listOps: ListOps

    function State(): PageState<C>
      reads this
    {
      PageState(selected, confirm, histories, pushed)
    }

    ghost predicate Valid()
      reads this
    {
      WellFormed(State())
    }

    /** `SelectHistory::new`: nothing selected, the dialog hidden in its default state. */
    constructor (records: seq<Entry>, ops: ConfirmOps<C>, list: ListOps, defaultChoice: C)
      ensures Valid()
      ensures State() == PageState(None, ConfirmState(false, defaultChoice), records, [])
      ensures confirmOps == ops && listOps == list
    {
      selected := None;
      confirm := ConfirmState(false, defaultChoice);
      histories := records;
      pushed := [];
      confirmOps := ops;
      listOps := list;
    }

    /** The footer `render` draws in a frame whose inner height is `height`. */
    function Footer(height: nat): (f: Footer)
      reads this
      ensures f.Listing? ==> f.total == |histories| && 1 <= f.position
      ensures Valid() && f.Listing? ==> f.position <= f.total
    {
      RenderPlan(|histories|, selected, height)
    }

    /** The shortcut list for the dialog's current visibility. */
    function KeyShortcutInfo(): (hints: seq<(string, string)>)
      reads this
      ensures |hints| == if confirm.show then 5 else 6
    {
      ShortcutInfo(confirm.show)
    }

    /** `SelectHistory::handle_key_event`, in the source's order. */
    method HandleKeyEvent(key: Key, io: PageIo) returns (out: KeyOutcome)
      modifies this
      ensures KeyReply(State(), out) == KeyStep(old(State()), key, confirmOps, listOps, io)
    {
      if key.kind != Press {
        return Unconsumed(key);
      }
      var code := key.code;
      if confirm.show {
        if code == Char('y') {
          confirm := Confirm(confirmOps, confirm);
          return Consumed;
        } else if code == Left || code == Right || code == Char('h') || code == Char('l') {
          confirm := Toggle(confirmOps, confirm);
          return Consumed;
        } else if code == Enter {
          if selected.Some? {
            var index := selected.value;
            if confirmOps.isConfirm(confirm.choice) {
              if index >= |histories| {
                return Panicked;
              }
              histories := RemoveIndex(histories, index);
              var saved := io.save(histories);
              if saved.Err? {
                return Failed(saved.msg);
              }
              selected := None;
            }
          }
          confirm := Hide(confirmOps, confirm);
          return Consumed;
        } else if code == Char('n') {
          confirm := Hide(confirmOps, confirm);
          return Consumed;
        }
        return Unconsumed(key);
      } else {
        if code == Char('h') || code == Left {
          selected := None;
          return Consumed;
        } else if code == Char('j') || code == Down {
          selected := listOps.next(selected);
          return Consumed;
        } else if code == Char('k') || code == Up {
          selected := listOps.previous(selected);
          return Consumed;
        } else if code == Char('l') || code == Right || code == Enter {
          if selected.None? {
            return Failed(SELECT_FIRST);
          } else if selected.value >= |histories| {
            return Panicked;
          }
          var (path, item) := histories[selected.value];
          var route;
          if item.Local? {
            var found := io.openLocal(path);
            if found.Err? {
              return Failed(found.msg);
            }
            route := ReadNovelRoute(path);
          } else {
            var found := io.openNetwork(path);
            if found.BadCache? || found.BadBookSource? {
              return Failed(found.msg);
            } else if found.NoBookSource? {
              return Failed(BOOK_SOURCE_NOT_FOUND);
            }
            route := BookDetailRoute(path);
          }
          var sent := io.push(route);
          if sent.Err? {
            return Failed(sent.msg);
          }
          pushed := pushed + [route];
          return Consumed;
        } else if code == Char('d') {
          if selected.None? {
            return Failed(SELECT_FIRST);
          }
          confirm := Show(confirmOps, confirm);
          return Consumed;
        }
        return Unconsumed(key);
      }
    }
  }

  // ---------------------------------------------------------------------
  // Properties of the key handler

  /** A key that is not a press is handed back and changes nothing. */
  lemma NonPressIgnored<C>(s: PageState<C>, key: Key, ops: ConfirmOps<C>, list: ListOps, io: PageIo)
    requires key.kind != Press
    ensures KeyStep(s, key, ops, list, io) == KeyReply(s, Unconsumed(key))
  {
  }

  /**
   * Enter with the dialog showing. A confirmed deletion with a selection
   * inside the list removes exactly the selected record and saves the rest;
   * when the save succeeds it clears the selection and hides the dialog,
   * when it fails the error comes back with the selection and the dialog
   * as they were. A selection past the end panics. Without a confirmed
   * deletion Enter only hides the dialog.
   */
  lemma DialogEnter<C>(s: PageState<C>, ctrl: bool, ops: ConfirmOps<C>, list: ListOps, io: PageIo)
    requires s.confirm.show
    ensures var r := KeyStep(s, Key(Enter, ctrl, Press), ops, list, io);
      r.state.pushed == s.pushed
      && (s.selected.Some? && ops.isConfirm(s.confirm.choice) && s.selected.value < |s.histories| ==>
            var i := s.selected.value;
            |r.state.histories| == |s.histories| - 1
            && multiset(r.state.histories) + multiset{s.histories[i]} == multiset(s.histories)
            && r.state.histories == s.histories[..i] + s.histories[i + 1..]
            && (io.save(r.state.histories).Ok? ==>
                  r.outcome == Consumed && r.state.selected == None && r.state.confirm == Hide(ops, s.confirm))
            && (io.save(r.state.histories).Err? ==>
                  r.outcome == Failed(io.save(r.state.histories).msg)
                  && r.state.selected == s.selected && r.state.confirm == s.confirm))
      && (s.selected.Some? && ops.isConfirm(s.confirm.choice) && s.selected.value >= |s.histories| ==>
            r == KeyReply(s, Panicked))
      && (!(s.selected.Some? && ops.isConfirm(s.confirm.choice)) ==>
            r == KeyReply(s.(confirm := Hide(ops, s.confirm)), Consumed))
      && !r.state.confirm.show == (r.outcome == Consumed)
  {
    if s.selected.Some? && ops.isConfirm(s.confirm.choice) && s.selected.value < |s.histories| {
      RemoveIndexMultiset(s.histories, s.selected.value);
    }
  }

  /** `n` with the dialog showing hides it and touches nothing else. */
  lemma DialogCancel<C>(s: PageState<C>, ctrl: bool, ops: ConfirmOps<C>, list: ListOps, io: PageIo)
    requires s.confirm.show
    ensures KeyStep(s, Key(Char('n'), ctrl, Press), ops, list, io) == KeyReply(s.(confirm := Hide(ops, s.confirm)), Consumed)
    ensures !Hide(ops, s.confirm).show
  {
  }

  /**
   * With the dialog showing, `y` confirms and `h`, `l`, Left and Right
   * toggle the choice; the dialog stays up and nothing else changes. Every
   * other key except Enter and `n` is handed back with nothing changed.
   */
  lemma DialogChoiceKeys<C>(s: PageState<C>, key: Key, ops: ConfirmOps<C>, list: ListOps, io: PageIo)
    requires s.confirm.show && key.kind == Press
    ensures key.code == Char('y') ==>
      KeyStep(s, key, ops, list, io) == KeyReply(s.(confirm := ConfirmState(true, ops.confirm(s.confirm.choice))), Consumed)
    ensures key.code in {Char('h'), Char('l'), Left, Right} ==>
      KeyStep(s, key, ops, list, io) == KeyReply(s.(confirm := ConfirmState(true, ops.toggle(s.confirm.choice))), Consumed)
    ensures key.code !in {Char('y'), Char('n'), Char('h'), Char('l'), Left, Right, Enter} ==>
      KeyStep(s, key, ops, list, io) == KeyReply(s, Unconsumed(key))
  {
  }

  /**
   * `d` with the dialog hidden: with no selection it fails with the
   * "select a record" message and the dialog stays hidden; with one it
   * shows the dialog and keeps the selection.
   */
  lemma DeleteKey<C>(s: PageState<C>, ctrl: bool, ops: ConfirmOps<C>, list: ListOps, io: PageIo)
    requires !s.confirm.show
    ensures var r := KeyStep(s, Key(Char('d'), ctrl, Press), ops, list, io);
      (s.selected.None? ==> r == KeyReply(s, Failed(SELECT_FIRST)) && !r.state.confirm.show)
      && (s.selected.Some? ==>
            r == KeyReply(s.(confirm := ConfirmState(true, ops.onShow(s.confirm.choice))), Consumed)
            && r.state.selected == s.selected)
  {
  }

  /**
   * `l`, Right or Enter with the dialog hidden never changes the records,
   * the selection or the dialog. With no selection it fails; a selection
   * past the end panics; a local record pushes a reading page, a network
   * record a book-detail page, each only when opening the novel and the
   * push succeed.
   */
  lemma OpenKeys<C>(s: PageState<C>, key: Key, ops: ConfirmOps<C>, list: ListOps, io: PageIo)
    requires !s.confirm.show && key.kind == Press
    requires key.code in {Char('l'), Right, Enter}
    ensures var r := KeyStep(s, key, ops, list, io);
      r.state.histories == s.histories && r.state.selected == s.selected && r.state.confirm == s.confirm
      && (s.selected.None? ==> r == KeyReply(s, Failed(SELECT_FIRST)))
      && (r.outcome == Panicked <==> s.selected.Some? && s.selected.value >= |s.histories|)
      && (r.outcome == Consumed <==> |r.state.pushed| == |s.pushed| + 1)
      && (r.outcome != Consumed ==> r.state.pushed == s.pushed && !r.outcome.Unconsumed?)
      && (s.selected.Some? && s.selected.value < |s.histories| ==>
            var (path, item) := s.histories[s.selected.value];
            (item.Local? && io.openLocal(path).Ok? && io.push(ReadNovelRoute(path)).Ok? ==>
               r == KeyReply(s.(pushed := s.pushed + [ReadNovelRoute(path)]), Consumed))
            && (item.Local? && io.openLocal(path).Err? ==> r.outcome == Failed(io.openLocal(path).msg))
            && (item.Network? && io.openNetwork(path).Opened? && io.push(BookDetailRoute(path)).Ok? ==>
                  r == KeyReply(s.(pushed := s.pushed + [BookDetailRoute(path)]), Consumed))
            && (item.Network? && io.openNetwork(path).NoBookSource? ==> r.outcome == Failed(BOOK_SOURCE_NOT_FOUND)))
  {
  }

  /** With the dialog hidden, `h`/Left clears the selection and `j`/Down, `k`/Up move it; nothing else changes. */
  lemma NavigationKeys<C>(s: PageState<C>, key: Key, ops: ConfirmOps<C>, list: ListOps, io: PageIo)
    requires !s.confirm.show && key.kind == Press
    ensures key.code in {Char('h'), Left} ==>
      KeyStep(s, key, ops, list, io) == KeyReply(s.(selected := None), Consumed)
    ensures key.code in {Char('j'), Down} ==>
      KeyStep(s, key, ops, list, io) == KeyReply(s.(selected := list.next(s.selected)), Consumed)
    ensures key.code in {Char('k'), Up} ==>
      KeyStep(s, key, ops, list, io) == KeyReply(s.(selected := list.previous(s.selected)), Consumed)
    ensures key.code !in {Char('h'), Left, Char('j'), Down, Char('k'), Up, Char('l'), Right, Enter, Char('d')} ==>
      KeyStep(s, key, ops, list, io) == KeyReply(s, Unconsumed(key))
  {
  }

  /**
   * Every key a shortcut list advertises is taken by the page in that
   * state, and Tab, advertised as switching to the file list, is handed
   * back to the enclosing page.
   */
  lemma {:induction false} HintedKeysAreTaken<C>(s: PageState<C>, code: KeyCode, ctrl: bool, ops: ConfirmOps<C>, list: ListOps, io: PageIo)
    ensures code in HintedKeys(s.confirm.show) ==> !KeyStep(s, Key(code, ctrl, Press), ops, list, io).outcome.Unconsumed?
    ensures KeyStep(s, Key(Tab, ctrl, Press), ops, list, io) == KeyReply(s, Unconsumed(Key(Tab, ctrl, Press)))
  {
    if s.confirm.show {
      assert HintedKeys(true) == {Char('y'), Char('n'), Char('h'), Left, Char('l'), Right, Enter};
    } else {
      assert HintedKeys(false) == {Char('j'), Down, Char('k'), Up, Char('h'), Left, Char('l'), Right, Enter, Char('d')};
    }
  }

  /**
   * As written, the handler keeps the selection inside the list (provided
   * the list's own moves do) except after a confirmed deletion whose save
   * fails, which keeps the old index. A deletion keeps the record keys unique.
   */
  lemma KeyStepKeepsWellFormedUnlessSaveFails<C>(s: PageState<C>, key: Key, ops: ConfirmOps<C>, list: ListOps, io: PageIo)
    requires WellFormed(s)
    requires InRange(list.next(s.selected), |s.histories|) && InRange(list.previous(s.selected), |s.histories|)
    ensures var r := KeyStep(s, key, ops, list, io);
      WellFormed(r.state)
      || (s.confirm.show && key == Key(Enter, key.ctrl, Press) && r.outcome.Failed? && r.state.selected == s.selected)
    ensures UniqueKeys(s.histories) ==> UniqueKeys(KeyStep(s, key, ops, list, io).state.histories)
  {
    var r := KeyStep(s, key, ops, list, io);
    if UniqueKeys(s.histories) && r.state.histories != s.histories {
      RemoveIndexKeepsKeysUnique(s.histories, s.selected.value);
    }
  }

  /**
   * The corrected handler always keeps the selection inside the list,
   * provided the list's own moves do; a deletion keeps the record keys unique.
   */
  lemma KeyStepKeepsWellFormed<C>(s: PageState<C>, key: Key, ops: ConfirmOps<C>, list: ListOps, io: PageIo)
    requires WellFormed(s)
    requires InRange(list.next(s.selected), |s.histories|) && InRange(list.previous(s.selected), |s.histories|)
    ensures WellFormed(KeyStepFixed(s, key, ops, list, io).state)
    ensures UniqueKeys(s.histories) ==> UniqueKeys(KeyStepFixed(s, key, ops, list, io).state.histories)
  {
    var r := KeyStepFixed(s, key, ops, list, io);
    if UniqueKeys(s.histories) && r.state.histories != s.histories {
      RemoveIndexKeepsKeysUnique(s.histories, s.selected.value);
    }
  }

  // ---------------------------------------------------------------------
  // The failed save after a confirmed deletion

  /**
   * As written, a confirmed deletion of the last record whose save fails
   * leaves the dialog up and the selection on an index past the end of the
   * list.
   */
  lemma FailedSaveLeavesStaleSelection<C>(s: PageState<C>, ctrl: bool, ops: ConfirmOps<C>, list: ListOps, io: PageIo)
    requires s.confirm.show && |s.histories| > 0 && s.selected == Some(|s.histories| - 1)
    requires ops.isConfirm(s.confirm.choice)
    requires io.save(s.histories[..|s.histories| - 1]).Err?
    ensures var r := KeyStep(s, Key(Enter, ctrl, Press), ops, list, io);
      r.outcome.Failed? && r.state.confirm.show && !WellFormed(r.state)
  {
    assert RemoveIndex(s.histories, |s.histories| - 1) == s.histories[..|s.histories| - 1];
  }

  /**
   * The whole failure with one record: Enter with the save failing, then
   * `n`, then `l`. As written the third key panics on `histories[0]` of an
   * empty list; the corrected handler answers "select a record" instead.
   */
  lemma FailedSaveThenOpenPanics<C>(entry: Entry, choice: C, ops: ConfirmOps<C>, list: ListOps, io: PageIo)
    requires ops.isConfirm(choice) && io.save([]).Err?
    ensures var s := PageState(Some(0), ConfirmState(true, choice), [entry], []);
      var r1 := KeyStep(s, Key(Enter, false, Press), ops, list, io);
      var r2 := KeyStep(r1.state, Key(Char('n'), false, Press), ops, list, io);
      var r3 := KeyStep(r2.state, Key(Char('l'), false, Press), ops, list, io);
      r1.outcome.Failed? && r2.outcome == Consumed && r3.outcome == Panicked
    ensures var s := PageState(Some(0), ConfirmState(true, choice), [entry], []);
      var f1 := KeyStepFixed(s, Key(Enter, false, Press), ops, list, io);
      var f2 := KeyStepFixed(f1.state, Key(Char('n'), false, Press), ops, list, io);
      var f3 := KeyStepFixed(f2.state, Key(Char('l'), false, Press), ops, list, io);
      f1.outcome.Failed? && f2.outcome == Consumed && f3.outcome == Failed(SELECT_FIRST)
  {
    var s := PageState(Some(0), ConfirmState(true, choice), [entry], []);
    assert RemoveIndex(s.histories, 0) == [];
  }

  /** The corrected handler differs from the source only in the selection left by a failed save after a deletion. */
  lemma FixedDiffersOnlyOnFailedSave<C>(s: PageState<C>, key: Key, ops: ConfirmOps<C>, list: ListOps, io: PageIo)
    requires WellFormed(s)
    ensures var fixed, written := KeyStepFixed(s, key, ops, list, io), KeyStep(s, key, ops, list, io);
      fixed.outcome == written.outcome
      && (fixed.state == written.state
          || (s.confirm.show && key == Key(Enter, key.ctrl, Press) && written.outcome.Failed?
              && written.state.selected == s.selected && fixed.state == written.state.(selected := None)))
  {
  }

  // ---------------------------------------------------------------------
  // Properties of the footer and the shortcut list

  /**
   * No records: only the placeholder. Otherwise the footer reads
   * `(selection or 0) + 1` over the number of records, which is a position
   * in the list when the selection is, and the scrollbar appears exactly
   * when not every record fits in the frame.
   */
  lemma {:induction false} FooterRules(len: nat, selected: Option<nat>, height: nat)
    ensures RenderPlan(len, selected, height).EmptyPlaceholder? <==> len == 0
    ensures len > 0 ==>
      RenderPlan(len, selected, height) == Listing(selected.GetOr(0) + 1, len, RenderPlan(len, selected, height).scrollbar)
    ensures len > 0 && InRange(selected, len) ==> 1 <= RenderPlan(len, selected, height).position <= len
    ensures len > 0 ==> (RenderPlan(len, selected, height).scrollbar <==> height / ITEM_HEIGHT < len)
  {
    if len > 0 {
      var q := height / ITEM_HEIGHT;
      assert height == q * ITEM_HEIGHT + height % ITEM_HEIGHT;
      if q < len {
        assert q + 1 <= len;
        assert (q + 1) * ITEM_HEIGHT <= len * ITEM_HEIGHT;
      } else {
        assert len * ITEM_HEIGHT <= q * ITEM_HEIGHT;
      }
    }
  }

  /** The dialog's list has five entries and the list's six; both end with the Tab hint. */
  lemma ShortcutCounts(show: bool)
    ensures |ShortcutInfo(show)| == if show then 5 else 6
    ensures ShortcutInfo(show)[|ShortcutInfo(show)| - 1] == ("切换到选择文件", "Tab")
  {
  }
}
