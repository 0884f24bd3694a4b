/**
 * The Loading / Select / Read state machine of `Mode`. The select and read
 * pages are type parameters `S` and `R`: the machine never looks inside
 * them, it only builds them, hands them terminal input and swaps them.
 * The work of the spawned tasks is replaced by the events they send on
 * the bus, in the order they send them.
 */
module AppMode {
  import opened Wrappers
  import opened Keys
  import History

  const SCANNING_MESSAGE := "扫描文件中..."
  const LOADING_NOVEL_MESSAGE := "正在加载小说..."

  /**
   * A loading screen: its message and how many times its animation state
   * has been advanced (`calc_next`) since `Loading::new`.
   */
  datatype LoadingView = LoadingView(message: string, ticks: nat)

  /** `Loading::new`. */
  function NewLoading(message: string): (l: LoadingView)
    ensures l.message == message && l.ticks == 0
  {
    LoadingView(message, 0)
  }

  /** Raw terminal input, handed to the active page unread. */
  datatype TermEvent = KeyInput(key: Key) | Resize(columns: nat, rows: nat) | OtherInput

  /** What a page asks the machine to do; `OtherAction` is every action it ignores. */
  datatype Action = SelectedFile(path: string) | OtherAction

  datatype FileTree = FileTree(files: seq<string>)

  /** `NovelFiles::from_path`: the start path is one novel, or a tree of candidates. */
  datatype NovelFiles = File(path: string) | Tree(tree: FileTree)

  /** A parsed novel, identified by the file it was read from. */
  datatype Novel = Novel(path: string)

  datatype Event =
    | CrosstermEvent(input: TermEvent)
    | Init(path: string)
    | Loading(loading: LoadingView)
    | ReadNovel(novel: Novel)
    | SelectNovel(tree: FileTree, history: seq<History.Entry>)
    | Tick

  datatype Mode<S, R> = Loading(loading: LoadingView) | Select(select: S) | Read(read: R)

  /** A page's answer to terminal input: the page afterwards and what `handle_term_events` returned. */
  datatype PageReply<P> = PageReply(page: P, result: Result<Option<Action>>)

  /**
   * The collaborators: the pages' terminal handlers, the page constructors
   * (`SelectNovel::new` with `SelectFile::new`, and `ReadNovel::new`), the
   * directory scan, the novel parser and `History::default`.
   */
  datatype Collaborators<!S, !R> = Collaborators(
    selectInput: (S, TermEvent) -> PageReply<S>,
    readInput: (R, TermEvent) -> PageReply<R>,
    newSelect: (FileTree, seq<History.Entry>) -> Result<S>,
    newRead: Novel -> Result<R>,
    scan: string -> Result<NovelFiles>,
    parse: string -> Result<Novel>,
    defaultHistory: Result<seq<History.Entry>>)

  /** One call of `handle_events`: the mode afterwards, the events its tasks send, its result. */
  datatype Step<S, R> = Step(mode: Mode<S, R>, emitted: seq<Event>, result: Outcome)

  /** `Mode::default`. */
  function Default<S, R>(): (m: Mode<S, R>)
    ensures m.Loading? && m.loading.message == SCANNING_MESSAGE && m.loading.ticks == 0
  {
    Mode.Loading(NewLoading(SCANNING_MESSAGE))
  }

  /**
   * `Mode::handle_term_events`: a loading screen takes no input; a page
   * answers for itself. Input never switches the mode to another variant.
   */
  function HandleTermEvents<S, R>(m: Mode<S, R>, input: TermEvent, c: Collaborators<S, R>): (r: (Mode<S, R>, Result<Option<Action>>))
    ensures r.0.Loading? == m.Loading? && r.0.Select? == m.Select? && r.0.Read? == m.Read?
    ensures m.Loading? ==> r == (m, Success(None))
  {
    match m
    case Loading(_) => (m, Success(None))
    case Select(page) =>
      var reply := c.selectInput(page, input);
      (Select(reply.page), reply.result)
    case Read(page) =>
      var reply := c.readInput(page, input);
      (Read(reply.page), reply.result)
  }

  /**
   * The task spawned to open `path`: it announces a loading screen, then
   * sends the parsed novel; a failed parse stops it after the first send.
   */
  function OpenNovelTask<S, R>(path: string, c: Collaborators<S, R>): seq<Event> {
    [Event.Loading(NewLoading(LOADING_NOVEL_MESSAGE))]
    + match c.parse(path)
      case Success(novel) => [ReadNovel(novel)]
      case Failure(_) => []
  }

  /**
   * The task spawned on `Init`: scan the path and create the default
   * history (either failing stops it before any send), then open the single
   * novel or send the tree of candidates with the history.
   */
  function InitTask<S, R>(path: string, c: Collaborators<S, R>): seq<Event> {
    match c.scan(path)
    case Failure(_) => []
    case Success(files) =>
      match c.defaultHistory
      case Failure(_) => []
      case Success(history) =>
        match files
        case File(novelPath) => OpenNovelTask(novelPath, c)
        case Tree(tree) => [SelectNovel(tree, history)]
  }

  /** The events the task for an action returned by the active page sends. */
  function ActionTask<S, R>(action: Option<Action>, c: Collaborators<S, R>): seq<Event> {
    match action
    case Some(SelectedFile(path)) => OpenNovelTask(path, c)
    case _ => []
  }

  /**
   * `Mode::handle_events` as a function of the mode it starts in. Only
   * terminal input and `Init` spawn tasks, and the tasks send only loading
   * screens, novels and file trees; a failed call sends nothing; input,
   * `Init` and `Tick` never switch the mode to another variant, and only a
   * `Loading` event brings up a loading screen.
   */
  function Transition<S, R>(m: Mode<S, R>, e: Event, c: Collaborators<S, R>): (r: Step<S, R>)
    ensures r.emitted != [] ==> e.CrosstermEvent? || e.Init?
    ensures forall k :: 0 <= k < |r.emitted| ==>
      r.emitted[k].Loading? || r.emitted[k].ReadNovel? || r.emitted[k].SelectNovel?
    ensures r.result.Err? ==> r.emitted == []
    ensures e.CrosstermEvent? || e.Init? || e.Tick? ==>
      r.mode.Loading? == m.Loading? && r.mode.Select? == m.Select? && r.mode.Read? == m.Read?
    ensures r.mode.Loading? && !m.Loading? ==> e.Loading?
  {
    match e
    case CrosstermEvent(input) =>
      var (m', answer) := HandleTermEvents(m, input, c);
      (match answer
       case Failure(msg) => Step(m', [], Err(msg))
       case Success(action) => Step(m', ActionTask(action, c), Ok))
    case Init(path) => Step(m, InitTask(path, c), Ok)
    case Loading(loading) => Step(Mode.Loading(loading), [], Ok)
    case ReadNovel(novel) =>
      (match c.newRead(novel)
       case Failure(msg) => Step(m, [], Err(msg))
       case Success(page) => Step(Read(page), [], Ok))
    case SelectNovel(tree, history) =>
      (match c.newSelect(tree, history)
       case Failure(msg) => Step(m, [], Err(msg))
       case Success(page) => Step(Select(page), [], Ok))
    case Tick =>
      (match m
       case Loading(loading) => Step(Mode.Loading(loading.(ticks := loading.ticks + 1)), [], Ok)
       case _ => Step(m, [], Ok))
  }

  /** The machine fed a sequence of events in order, collecting what its tasks send. */
  ghost function Replay<S, R>(m: Mode<S, R>, events: seq<Event>, c: Collaborators<S, R>): (r: (Mode<S, R>, seq<Event>))
    decreases |events|
  {
    if events == [] then (m, [])
    else
      var step := Transition(m, events[0], c);
      var rest := Replay(step.mode, events[1..], c);
      (rest.0, step.emitted + rest.1)
  }

  lemma ReplayUnfold<S, R>(m: Mode<S, R>, events: seq<Event>, c: Collaborators<S, R>)
    requires events != []
    ensures Replay(m, events, c) ==
      (Replay(Transition(m, events[0], c).mode, events[1..], c).0,
       Transition(m, events[0], c).emitted + Replay(Transition(m, events[0], c).mode, events[1..], c).1)
  {
  }

  /** A `Mode` owned in place, and the events sent on the bus by the tasks it spawned. */
  class Machine<S, R> {
    var mode: Mode<S, R>
    var sent: seq<Event>

    constructor ()
      ensures mode == Default() && sent == []
    {
      mode := Mode.Loading(NewLoading(SCANNING_MESSAGE));
      sent := [];
    }

    /** `Mode::handle_events`: replaces or updates the mode in place and sends the tasks' events. */
    method HandleEvents(e: Event, c: Collaborators<S, R>) returns (r: Outcome)
      modifies this
      ensures var step := Transition(old(mode), e, c);
        mode == step.mode && sent == old(sent) + step.emitted && r == step.result
    {
      match e {
        case CrosstermEvent(input) =>
          var reply := HandleTermEvents(mode, input, c);
          mode := reply.0;
          var answer := reply.1;
          if answer.Failure? {
            return Err(answer.msg);
          }
          if answer.value.Some? && answer.value.value.SelectedFile? {
            sent := sent + OpenNovelTask(answer.value.value.path, c);
          }
        case Init(path) =>
          sent := sent + InitTask(path, c);
        case Loading(loading) =>
          mode := Mode.Loading(loading);
        case ReadNovel(novel) =>
          var page := c.newRead(novel);
          if page.Failure? {
            return Err(page.msg);
          }
          mode := Read(page.value);
        case SelectNovel(tree, history) =>
          var page := c.newSelect(tree, history);
          if page.Failure? {
            return Err(page.msg);
          }
          mode := Select(page.value);
        case Tick =>
          if mode.Loading? {
            mode := Mode.Loading(mode.loading.(ticks := mode.loading.ticks + 1));
          }
      }
      return Ok;
    }
  }

  // ---------------------------------------------------------------------
  // Properties

  /** `Loading`, `ReadNovel` and `SelectNovel` replace the mode whatever it was. */
  lemma ReplacingEventsIgnoreMode<S, R>(m1: Mode<S, R>, m2: Mode<S, R>, e: Event, c: Collaborators<S, R>)
    requires e.Loading? || e.ReadNovel? || e.SelectNovel?
    ensures Transition(m1, e, c).emitted == []
    ensures Transition(m1, e, c).result == Transition(m2, e, c).result
    ensures Transition(m1, e, c).result.Ok? ==> Transition(m1, e, c).mode == Transition(m2, e, c).mode
    ensures Transition(m1, e, c).result.Err? ==> Transition(m1, e, c).mode == m1
    ensures e.Loading? ==> Transition(m1, e, c) == Step(Mode.Loading(e.loading), [], Ok)
    ensures e.ReadNovel? && c.newRead(e.novel).Success? ==>
      Transition(m1, e, c).mode == Read(c.newRead(e.novel).value)
    ensures e.SelectNovel? && c.newSelect(e.tree, e.history).Success? ==>
      Transition(m1, e, c).mode == Select(c.newSelect(e.tree, e.history).value)
  {
  }

  /** `Tick` advances the animation of a loading screen by one and leaves a page alone. */
  lemma TickOnlyAnimatesLoading<S, R>(m: Mode<S, R>, c: Collaborators<S, R>)
    ensures Transition(m, Tick, c).emitted == [] && Transition(m, Tick, c).result == Ok
    ensures m.Loading? ==>
      Transition(m, Tick, c).mode == Mode.Loading(LoadingView(m.loading.message, m.loading.ticks + 1))
    ensures !m.Loading? ==> Transition(m, Tick, c).mode == m
  {
  }

  /** Terminal input on a loading screen yields no action, sends nothing and changes nothing. */
  lemma InputWhileLoadingIsInert<S, R>(m: Mode<S, R>, input: TermEvent, c: Collaborators<S, R>)
    requires m.Loading?
    ensures HandleTermEvents(m, input, c) == (m, Success(None))
    ensures Transition(m, CrosstermEvent(input), c) == Step(m, [], Ok)
  {
  }

  /**
   * An action from the active page: `SelectedFile(path)` sends exactly a
   * loading screen then the parsed novel; anything else sends nothing; an
   * error from the page sends nothing and is the result.
   */
  lemma InputActions<S, R>(m: Mode<S, R>, input: TermEvent, c: Collaborators<S, R>)
    ensures var (m', answer) := HandleTermEvents(m, input, c);
      var step := Transition(m, CrosstermEvent(input), c);
      step.mode == m'
      && (answer.Failure? ==> step.emitted == [] && step.result == Err(answer.msg))
      && (answer.Success? && (answer.value.None? || !answer.value.value.SelectedFile?) ==>
            step.emitted == [] && step.result == Ok)
      && (answer.Success? && answer.value.Some? && answer.value.value.SelectedFile?
          && c.parse(answer.value.value.path).Success? ==>
            step.emitted == [Event.Loading(LoadingView(LOADING_NOVEL_MESSAGE, 0)),
                             ReadNovel(c.parse(answer.value.value.path).value)]
            && step.result == Ok)
  {
  }

  /**
   * `Init` leaves the mode alone; a single file sends a loading screen then
   * the novel, a tree sends exactly one `SelectNovel` and no loading screen.
   */
  lemma InitEvents<S, R>(m: Mode<S, R>, path: string, c: Collaborators<S, R>)
    ensures Transition(m, Init(path), c).mode == m && Transition(m, Init(path), c).result == Ok
    ensures (c.scan(path).Success? && c.scan(path).value.File? && c.defaultHistory.Success?
             && c.parse(c.scan(path).value.path).Success?) ==>
        Transition(m, Init(path), c).emitted ==
          [Event.Loading(LoadingView(LOADING_NOVEL_MESSAGE, 0)), ReadNovel(c.parse(c.scan(path).value.path).value)]
    ensures c.scan(path).Success? && c.scan(path).value.Tree? && c.defaultHistory.Success? ==>
        Transition(m, Init(path), c).emitted == [SelectNovel(c.scan(path).value.tree, c.defaultHistory.value)]
    ensures c.scan(path).Failure? || c.defaultHistory.Failure? ==> Transition(m, Init(path), c).emitted == []
  {
  }

  /**
   * A start path that is a single novel goes straight to reading: feeding
   * the machine the two events `Init` sends shows a loading screen, then
   * ends in `Read`.
   */
  lemma {:induction false} SingleFileGoesStraightToRead<S, R>(m: Mode<S, R>, path: string, c: Collaborators<S, R>)
    requires c.scan(path).Success? && c.scan(path).value.File? && c.defaultHistory.Success?
    requires c.parse(c.scan(path).value.path).Success?
    requires c.newRead(c.parse(c.scan(path).value.path).value).Success?
    ensures var sent := Transition(m, Init(path), c).emitted;
      Replay(m, sent, c) == (Read(c.newRead(c.parse(c.scan(path).value.path).value).value), [])
    ensures var sent := Transition(m, Init(path), c).emitted;
      |sent| == 2 && Replay(m, sent[..1], c).0 == Mode.Loading(LoadingView(LOADING_NOVEL_MESSAGE, 0))
  {
    var novel := c.parse(c.scan(path).value.path).value;
    var page := c.newRead(novel).value;
    var sent := Transition(m, Init(path), c).emitted;
    var loading := Mode.Loading(LoadingView(LOADING_NOVEL_MESSAGE, 0));
    assert sent == [Event.Loading(LoadingView(LOADING_NOVEL_MESSAGE, 0)), ReadNovel(novel)];
    assert Transition(m, sent[0], c) == Step(loading, [], Ok);
    assert Transition(loading, ReadNovel(novel), c) == Step(Read(page), [], Ok);
    assert Replay(Read(page), [], c) == (Read(page), []);
    var tail := [ReadNovel(novel)];
    assert sent[1..] == tail && tail[1..] == [];
    ReplayUnfold(loading, tail, c);
    assert tail[0] == ReadNovel(novel);
    assert Replay(Read(page), tail[1..], c) == (Read(page), []);
    assert Transition(loading, tail[0], c).emitted == [];
    assert Replay(loading, tail, c).1 == [];
    ReplayUnfold(m, sent, c);
    assert Replay(m, sent, c) == (Read(page), []);
    assert sent[..1][1..] == [];
    ReplayUnfold(m, sent[..1], c);
    assert Replay(loading, [], c) == (loading, []);
  }

  /**
   * A start path that is a directory goes to `Select`, built from the
   * scanned tree and the history, without a loading screen.
   */
  lemma {:induction false} TreeGoesToSelect<S, R>(m: Mode<S, R>, path: string, c: Collaborators<S, R>)
    requires c.scan(path).Success? && c.scan(path).value.Tree? && c.defaultHistory.Success?
    requires c.newSelect(c.scan(path).value.tree, c.defaultHistory.value).Success?
    ensures var sent := Transition(m, Init(path), c).emitted;
      Replay(m, sent, c) == (Select(c.newSelect(c.scan(path).value.tree, c.defaultHistory.value).value), [])
      && forall k :: 0 <= k < |sent| ==> !sent[k].Loading?
  {
    var sent := Transition(m, Init(path), c).emitted;
    var page := c.newSelect(c.scan(path).value.tree, c.defaultHistory.value).value;
    assert sent == [SelectNovel(c.scan(path).value.tree, c.defaultHistory.value)];
    assert Transition(m, sent[0], c) == Step(Select(page), [], Ok);
    assert sent[1..] == [];
    assert Replay(Select(page), [], c) == (Select(page), []);
    ReplayUnfold(m, sent, c);
    assert Replay(m, sent, c).1 == [];
  }
}
