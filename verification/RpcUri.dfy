/**
 The RPC address of internet/wamp.go: `^com\.stores\.(?P<store>[a-zA-Z0-9_]*).(?P<command>[a-z\-]*)$`,
 and the task `rgxRPCHandler` pushes for it.  The third dot of the pattern is not escaped, so it
 stands for any character but a newline.  A string is a sequence of Unicode characters.
 */
module RpcUri {
  import opened Wrappers
  import opened Ascii

  const PREFIX := "com.stores."

  predicate IsWord(c: char) {
    'a' <= c <= 'z' || 'A' <= c <= 'Z' || '0' <= c <= '9' || c == '_'
  }

  predicate IsCommandChar(c: char) {
    'a' <= c <= 'z' || c == '-'
  }

  predicate AllWord(s: string) {
    forall i | 0 <= i < |s| :: IsWord(s[i])
  }

  predicate AllCommand(s: string) {
    forall i | 0 <= i < |s| :: IsCommandChar(s[i])
  }

  /** With a store of `n` characters, the rest of the pattern matches the rest of the tail. */
  predicate Fits(tail: string, n: nat) {
    n < |tail| && tail[n] != '\n' && AllCommand(tail[n + 1..])
  }

  /** The characters of the two classes of the pattern, by their codes. */
  predicate StoreChar(c: char) {
    Letter(c) || Digit(c) || c as int == 95
  }

  predicate CommandChar(c: char) {
    Lower(c) || c as int == 45
  }

  /** The pattern matches the tail with a store of `n` characters. */
  predicate Splits(tail: string, n: nat) {
    && n < |tail| && tail[n] != '\n'
    && (forall i | 0 <= i < n :: StoreChar(tail[i]))
    && (forall i | n < i < |tail| :: CommandChar(tail[i]))
  }

  lemma SplitsIff(tail: string, n: nat)
    ensures Splits(tail, n) <==> n <= |tail| && AllWord(tail[..n]) && Fits(tail, n)
  {
    if n <= |tail| && AllWord(tail[..n]) && Fits(tail, n) {
      assert forall i | 0 <= i < n :: tail[i] == tail[..n][i];
      assert forall i | n < i < |tail| :: tail[i] == tail[n + 1..][i - n - 1];
    }
  }

  /** The length of the run of word characters at the head. */
  function WordRun(s: string): (n: nat)
    ensures n <= |s| && AllWord(s[..n])
    ensures n < |s| ==> !IsWord(s[n])
  {
    if s != "" && IsWord(s[0]) then
      assert forall i | 0 < i < 1 + WordRun(s[1..]) :: s[i] == s[1..][..WordRun(s[1..])][i - 1];
      1 + WordRun(s[1..])
    else 0
  }

  /** The greedy star gives characters back one at a time until the rest fits. */
  function BackTrack(tail: string, n: nat): Option<nat> {
    if Fits(tail, n) then Some(n) else if n == 0 then None else BackTrack(tail, n - 1)
  }

  function Split(tail: string): Option<nat> {
    BackTrack(tail, WordRun(tail))
  }

  datatype Address = Address(store: string, command: string)

  /** `FindStringSubmatchMap`. */
  function Parse(uri: string): Option<Address> {
    if PREFIX <= uri then
      var tail := uri[|PREFIX|..];
      match Split(tail)
      case None => None
      case Some(n) => if n < |tail| then Some(Address(tail[..n], tail[n + 1..])) else None
    else None
  }

  function Print(a: Address, separator: char): string {
    PREFIX + a.store + [separator] + a.command
  }

  // ---------------------------------------------------------------- the split

  lemma {:induction false} BackTrackIsLongest(tail: string, n: nat)
    ensures BackTrack(tail, n).Some? ==> BackTrack(tail, n).value <= n && Fits(tail, BackTrack(tail, n).value)
    ensures forall k: nat | k <= n && Fits(tail, k) :: BackTrack(tail, n).Some? && k <= BackTrack(tail, n).value
  {
    if n > 0 {
      BackTrackIsLongest(tail, n - 1);
    }
  }

  lemma WordRunIsLongest(tail: string, k: nat)
    requires k <= |tail| && AllWord(tail[..k])
    ensures k <= WordRun(tail)
  {
    assert forall i | 0 <= i < k :: tail[..k][i] == tail[i];
  }

  /** The match found has the longest possible store, and one is found iff there is any. */
  lemma SplitIsLongest(tail: string)
    ensures Split(tail).Some? ==> Splits(tail, Split(tail).value)
    ensures forall k: nat | Splits(tail, k) :: Split(tail).Some? && k <= Split(tail).value
  {
    BackTrackIsLongest(tail, WordRun(tail));
    if Split(tail).Some? {
      SplitsIff(tail, Split(tail).value);
      assert tail[..Split(tail).value] == tail[..WordRun(tail)][..Split(tail).value];
    }
    forall k: nat | Splits(tail, k)
      ensures Split(tail).Some? && k <= Split(tail).value
    {
      SplitsIff(tail, k);
      WordRunIsLongest(tail, k);
    }
  }

  /**
   The backtracking in closed form: the whole run of word characters is the store when a separator
   and a command follow; a tail of word characters only gives its last one up as the separator; in
   every other case giving characters back does not help.
   */
  lemma SplitClosedForm(tail: string)
    ensures var n := WordRun(tail);
            Split(tail) == if Fits(tail, n) then Some(n)
                           else if n == |tail| && n > 0 then Some(n - 1)
                           else None
  {
    var n := WordRun(tail);
    if n < |tail| {
      if !Fits(tail, n) {
        NothingFits(tail, n, n);
      }
    } else if n > 0 {
      assert IsWord(tail[..n][n - 1]);
      GivesLastUp(tail);
    } else {
      assert BackTrack(tail, 0) == None;
    }
  }

  lemma GivesLastUp(tail: string)
    requires tail != "" && IsWord(tail[|tail| - 1])
    ensures BackTrack(tail, |tail|) == Some(|tail| - 1)
  {
    assert Fits(tail, |tail| - 1);
    assert BackTrack(tail, |tail| - 1) == Some(|tail| - 1);
  }

  lemma {:induction false} NothingFits(tail: string, k: nat, n: nat)
    requires k <= n < |tail| && !Fits(tail, n)
    ensures BackTrack(tail, k) == None
    decreases k
  {
    if k < n && Fits(tail, k) {
      ShorterFits(tail, k, n);
    }
    if k > 0 {
      NothingFits(tail, k - 1, n);
    }
  }

  /** If the rest fits behind a shorter store, it fits behind the whole run too. */
  lemma ShorterFits(tail: string, k: nat, n: nat)
    requires k < n < |tail| && Fits(tail, k)
    ensures Fits(tail, n)
  {
    var long, short := tail[k + 1..], tail[n..];
    assert forall i | 0 <= i < |short| :: short[i] == long[n - k - 1 + i];
    assert IsCommandChar(short[0]);
    assert tail[n + 1..] == short[1..];
  }

  // ---------------------------------------------------------------- printing and parsing

  /** A parsed address is legal and a printing of it is the URI itself. */
  lemma ParseThenPrint(uri: string)
    requires Parse(uri).Some?
    ensures var a := Parse(uri).value;
            && AllWord(a.store) && AllCommand(a.command)
            && |PREFIX| + |a.store| < |uri| && uri == Print(a, uri[|PREFIX| + |a.store|])
            && uri[|PREFIX| + |a.store|] != '\n'
  {
    SplitIsLongest(uri[|PREFIX|..]);
    if Split(uri[|PREFIX|..]).Some? {
      SplitsIff(uri[|PREFIX|..], Split(uri[|PREFIX|..]).value);
    }
  }

  lemma WordRunOfJoin(store: string, rest: string)
    requires AllWord(store)
    ensures WordRun(store + rest) == |store| + WordRun(rest)
  {
    if store == "" {
      assert store + rest == rest;
    } else {
      assert (store + rest)[0] == store[0] && (store + rest)[1..] == store[1..] + rest;
      WordRunOfJoin(store[1..], rest);
    }
  }

  /**
   Printing then parsing, exactly: a pair comes back iff it is legal and the separator is not a
   newline and, unless the command is empty, not a word character.
   */
  lemma PrintThenParseIff(a: Address, c: char)
    ensures Parse(Print(a, c)) == Some(a) <==>
            AllWord(a.store) && AllCommand(a.command) && c != '\n' && (!IsWord(c) || a.command == "")
  {
    var uri := Print(a, c);
    var tail := a.store + ([c] + a.command);
    assert uri == PREFIX + tail && uri[|PREFIX|..] == tail;
    if Parse(uri) == Some(a) {
      ParseThenPrint(uri);
      assert uri[|PREFIX| + |a.store|] == c;
    }
    if AllWord(a.store) && AllCommand(a.command) && c != '\n' {
      PrintedSplit(a, c);
      assert tail[..|a.store|] == a.store && tail[|a.store| + 1..] == a.command;
    }
  }

  lemma PrintedSplit(a: Address, c: char)
    requires AllWord(a.store) && AllCommand(a.command) && c != '\n'
    ensures var tail := a.store + ([c] + a.command);
            Split(tail) == Some(|a.store|) <==> !IsWord(c) || a.command == ""
  {
    var rest := [c] + a.command;
    var tail := a.store + rest;
    var n := |a.store|;
    WordRunOfJoin(a.store, rest);
    SplitClosedForm(tail);
    assert tail[n] == c && tail[n + 1..] == a.command;
    if IsWord(c) {
      assert rest[1..] == a.command;
      if a.command == "" {
        assert WordRun(rest) == 1;
      } else {
        LongerSplit(tail, n, WordRun(tail));
      }
    } else {
      assert WordRun(rest) == 0;
    }
  }

  /** With a word character for separator and a command behind it, a longer store fits. */
  lemma LongerSplit(tail: string, n: nat, run: nat)
    requires n + 1 < |tail| && AllCommand(tail[n + 1..]) && n < run == WordRun(tail)
    ensures Split(tail) != Some(n)
  {
    SplitClosedForm(tail);
    if run < |tail| {
      assert tail[n + 1..][run - n - 1] == tail[run];
      assert tail[run + 1..] == tail[n + 1..][run - n..];
    }
  }

  /** A tail of word characters only always parses, to an empty command. */
  lemma WordsOnlyHasNoCommand(tail: string)
    requires AllWord(tail) && tail != ""
    ensures Parse(PREFIX + tail) == Some(Address(tail[..|tail| - 1], ""))
  {
    WordRunIsLongest(tail, |tail|);
    assert tail[..|tail|] == tail;
    SplitClosedForm(tail);
    var uri := PREFIX + tail;
    assert uri[|PREFIX|..] == tail;
    assert tail[|tail| - 1 + 1..] == "";
  }

  // ---------------------------------------------------------------- dispatch

  type Arg = string  // an argument as it came from the wire

  datatype TaskType = DbGet | DbSet | DbInsert | DbDelete | DbPush | DbLoadRefs | DbFind | WidgetData

  datatype Task = Task(userID: Arg, store: string, kind: TaskType, arguments: map<string, Arg>)

  /** What `GetExtra` holds: nothing, something unexpected, or credentials and their session's state. */
  datatype Extra = NoExtra | Foreign | Credentials(userID: Arg, sessionAlive: bool)

  datatype Reply = Pushed(task: Task) | InvalidArguments | Internal | Forbidden | LegacyDisabled | UnknownMethod

  const GUEST: Arg := "guest"

  function Dispatch(user: Arg, a: Address, args: seq<Arg>): Reply
    requires |args| > 0
  {
    if a.command == "get" then Pushed(Task(user, a.store, DbGet, map["_id" := args[0]]))
    else if a.command == "save" then Pushed(Task(user, a.store, DbSet, map["item" := args[0]]))
    else if a.command == "insert" then Pushed(Task(user, a.store, DbInsert, map["item" := args[0]]))
    else if a.command == "delete" then Pushed(Task(user, a.store, DbDelete, map["_id" := args[0]]))
    else if a.command == "push" then
      if |args| < 3 then InvalidArguments
      else Pushed(Task(user, a.store, DbPush, map["_id" := args[0], "prop" := args[1], "data" := args[2]]))
    else if a.command == "load-refs" then
      if |args| < 4 then InvalidArguments
      else
        Pushed(Task(user, a.store, DbLoadRefs,
                    map["_id" := args[0], "prop" := args[1], "selected" := args[2], "query" := args[3]]))
    else if a.command == "find" then Pushed(Task(user, a.store, DbFind, map["query" := args[0]]))
    else if a.command == "widget-data" then
      if |args| < 3 then InvalidArguments
      else Pushed(Task(user, a.store, WidgetData, map["widgetId" := args[0], "data" := args[1], "itemId" := args[2]]))
    else UnknownMethod
  }

  /** `rgxRPCHandler` up to the push of the task. */
  function Handle(extra: Extra, legacy: bool, uri: string, args: seq<Arg>): Reply {
    if |args| == 0 then InvalidArguments
    else if extra == Foreign then Internal
    else if extra.Credentials? && !extra.sessionAlive then Forbidden
    else
      match Parse(uri)
      case None => UnknownMethod
      case Some(a) =>
        if !legacy then LegacyDisabled
        else Dispatch(if extra.Credentials? then extra.userID else GUEST, a, args)
  }

  /** How many arguments a command takes. */
  function Arity(command: string): Option<nat> {
    match command
    case "get" => Some(1)
    case "save" => Some(1)
    case "insert" => Some(1)
    case "delete" => Some(1)
    case "push" => Some(3)
    case "load-refs" => Some(4)
    case "find" => Some(1)
    case "widget-data" => Some(3)
    case _ => None
  }

  predicate Takes(command: string, nargs: nat) {
    Arity(command).Some? && Arity(command).value <= nargs
  }

  /** A task is pushed iff the command is known and has its arguments; */
  lemma DispatchIffTakes(user: Arg, a: Address, args: seq<Arg>)
    requires |args| > 0
    ensures Dispatch(user, a, args).Pushed? <==> Takes(a.command, |args|)
  {
  }

  /** The arguments a command looks at. */
  function Taken(command: string, args: seq<Arg>): seq<Arg> {
    if Takes(command, |args|) then args[..Arity(command).value] else args
  }

  /** A call, as far as it matters: of the arguments, those its command takes. */
  datatype Call = Call(user: Arg, address: Address, args: seq<Arg>)

  function CallOf(t: Task): Call {
    var m := t.arguments;
    match t.kind
    case DbGet => Call(t.userID, Address(t.store, "get"), Values(m, ["_id"]))
    case DbSet => Call(t.userID, Address(t.store, "save"), Values(m, ["item"]))
    case DbInsert => Call(t.userID, Address(t.store, "insert"), Values(m, ["item"]))
    case DbDelete => Call(t.userID, Address(t.store, "delete"), Values(m, ["_id"]))
    case DbPush => Call(t.userID, Address(t.store, "push"), Values(m, ["_id", "prop", "data"]))
    case DbLoadRefs => Call(t.userID, Address(t.store, "load-refs"), Values(m, ["_id", "prop", "selected", "query"]))
    case DbFind => Call(t.userID, Address(t.store, "find"), Values(m, ["query"]))
    case WidgetData => Call(t.userID, Address(t.store, "widget-data"), Values(m, ["widgetId", "data", "itemId"]))
  }

  function Values(m: map<string, Arg>, names: seq<string>): (r: seq<Arg>)
    ensures |r| == |names|
    ensures forall i | 0 <= i < |names| :: names[i] in m ==> r[i] == m[names[i]]
  {
    if names == [] then [] else [if names[0] in m then m[names[0]] else ""] + Values(m, names[1..])
  }

  /** Nothing of a call is mixed up or lost on its way into the task. */
  lemma TaskTellsCall(user: Arg, a: Address, args: seq<Arg>)
    requires |args| > 0 && Takes(a.command, |args|)
    ensures Dispatch(user, a, args).Pushed?
    ensures CallOf(Dispatch(user, a, args).task) == Call(user, a, Taken(a.command, args))
    ensures Dispatch(user, a, args).task.userID == user
  {
  }

  /** The arguments a call does not take do not matter. */
  lemma OnlyTakenArgumentsMatter(user: Arg, a: Address, args: seq<Arg>, args': seq<Arg>)
    requires |args| > 0 && |args'| > 0 && Takes(a.command, |args|) && Takes(a.command, |args'|)
    requires Taken(a.command, args) == Taken(a.command, args')
    ensures Dispatch(user, a, args) == Dispatch(user, a, args')
  {
    forall i | 0 <= i < Arity(a.command).value
      ensures args[i] == args'[i]
    {
      assert Taken(a.command, args)[i] == Taken(a.command, args')[i];
    }
  }

  /** The URIs of the pattern that name a known command with enough arguments behind a real separator. */
  ghost predicate Pushable(uri: string, nargs: nat) {
    exists a, c :: IsCall(uri, a, c) && Takes(a.command, nargs)
  }

  predicate IsCall(uri: string, a: Address, c: char) {
    && uri == "com.stores." + a.store + [c] + a.command
    && (forall i | 0 <= i < |a.store| :: StoreChar(a.store[i])) && !StoreChar(c) && c != '\n'
  }

  /**
   Exactly which calls push a task: with an argument, by a guest or with a live session, with legacy
   support on, and with a store, any character that is neither a word character nor a newline, and a
   command with enough arguments.
   */
  lemma PushedIff(extra: Extra, legacy: bool, uri: string, args: seq<Arg>)
    ensures Handle(extra, legacy, uri, args).Pushed? <==>
            (extra == NoExtra || (extra.Credentials? && extra.sessionAlive)) && legacy && Pushable(uri, |args|)
  {
    PushableIff(uri, |args|);
    if args != [] && Parse(uri).Some? {
      DispatchIffTakes(if extra.Credentials? then extra.userID else GUEST, Parse(uri).value, args);
    }
  }

  lemma PushableIff(uri: string, nargs: nat)
    ensures Pushable(uri, nargs) <==> Parse(uri).Some? && Takes(Parse(uri).value.command, nargs)
    ensures Pushable(uri, nargs) ==> nargs > 0
  {
    if Parse(uri).Some? && Takes(Parse(uri).value.command, nargs) {
      ParsedIsCall(uri, nargs);
    }
    if Pushable(uri, nargs) {
      var a, c :| IsCall(uri, a, c) && Takes(a.command, nargs);
      CallParses(uri, a, c, nargs);
    }
  }

  lemma PrintIs(a: Address, c: char)
    ensures Print(a, c) == "com.stores." + a.store + [c] + a.command
  {
  }

  lemma ParsedIsCall(uri: string, nargs: nat)
    requires Parse(uri).Some? && Takes(Parse(uri).value.command, nargs)
    ensures Pushable(uri, nargs)
  {
    var a := Parse(uri).value;
    var c := uri[|PREFIX| + |a.store|];
    ParseThenPrint(uri);
    CommandIsLegal(a.command);
    PrintThenParseIff(a, c);
    PrintIs(a, c);
    assert IsCall(uri, a, c);
  }

  lemma CallParses(uri: string, a: Address, c: char, nargs: nat)
    requires IsCall(uri, a, c) && Takes(a.command, nargs)
    ensures Parse(uri) == Some(a) && nargs > 0
  {
    CommandIsLegal(a.command);
    PrintIs(a, c);
    PrintThenParseIff(a, c);
  }

  lemma CommandIsLegal(c: string)
    requires Arity(c).Some?
    ensures AllCommand(c) && c != "" && Arity(c).value > 0
  {
  }

  /** Which refusal comes when: the checks in their order. */
  lemma RefusedIff(extra: Extra, legacy: bool, uri: string, args: seq<Arg>)
    ensures var r, a := Handle(extra, legacy, uri, args), Parse(uri);
            && (args == [] ==> r == InvalidArguments)
            && (args != [] && extra == Foreign <==> r == Internal)
            && (args != [] && extra.Credentials? && !extra.sessionAlive <==> r == Forbidden)
            && (r == LegacyDisabled <==> args != [] && r != Internal && r != Forbidden && a.Some? && !legacy)
            && (r == UnknownMethod <==> args != [] && r != Internal && r != Forbidden
                                        && (a == None || (legacy && Arity(a.value.command) == None)))
            && (r == InvalidArguments && args != [] ==>
                  legacy && a.Some? && Arity(a.value.command).Some? && |args| < Arity(a.value.command).value)
  {
    if args != [] && Parse(uri).Some? {
      DispatchReplies(if extra.Credentials? then extra.userID else GUEST, Parse(uri).value, args);
    }
  }

  lemma DispatchReplies(user: Arg, a: Address, args: seq<Arg>)
    requires |args| > 0
    ensures var r := Dispatch(user, a, args);
            if Takes(a.command, |args|) then r.Pushed?
            else r == if Arity(a.command) == None then UnknownMethod else InvalidArguments
  {
  }

  /**
   A pushed task stands for one call and no other: it runs as the session's own user, or as a guest
   without credentials, and two calls push equal tasks iff they come from the same user and agree on
   store, command and the arguments the command takes.
   */
  lemma SameTaskIff(extra: Extra, uri: string, args: seq<Arg>, extra': Extra, uri': string, args': seq<Arg>)
    requires Handle(extra, true, uri, args).Pushed? && Handle(extra', true, uri', args').Pushed?
    ensures Handle(extra, true, uri, args).task.userID == if extra.Credentials? then extra.userID else "guest"
    ensures Handle(extra, true, uri, args).task == Handle(extra', true, uri', args').task <==>
            && Handle(extra, true, uri, args).task.userID == Handle(extra', true, uri', args').task.userID
            && Parse(uri) == Parse(uri')
            && Taken(Parse(uri).value.command, args) == Taken(Parse(uri').value.command, args')
  {
    var user := if extra.Credentials? then extra.userID else GUEST;
    var user' := if extra'.Credentials? then extra'.userID else GUEST;
    SameDispatchIff(user, Parse(uri).value, args, user', Parse(uri').value, args');
  }

  lemma SameDispatchIff(user: Arg, a: Address, args: seq<Arg>, user': Arg, b: Address, args': seq<Arg>)
    requires |args| > 0 && |args'| > 0 && Dispatch(user, a, args).Pushed? && Dispatch(user', b, args').Pushed?
    ensures Dispatch(user, a, args).task.userID == user && Dispatch(user', b, args').task.userID == user'
    ensures Dispatch(user, a, args) == Dispatch(user', b, args') <==>
            user == user' && a == b && Taken(a.command, args) == Taken(b.command, args')
  {
    DispatchIffTakes(user, a, args);
    DispatchIffTakes(user', b, args');
    TaskTellsCall(user, a, args);
    TaskTellsCall(user', b, args');
    if user == user' && a == b && Taken(a.command, args) == Taken(b.command, args') {
      OnlyTakenArgumentsMatter(user, a, args, args');
    }
  }

  /** Two live sessions of different users never push equal tasks. */
  lemma UsersAreKeptApart(uri: string, args: seq<Arg>, user: Arg, uri': string, args': seq<Arg>, user': Arg)
    requires Handle(Credentials(user, true), true, uri, args).Pushed?
    requires Handle(Credentials(user', true), true, uri', args').Pushed? && user != user'
    ensures Handle(Credentials(user, true), true, uri, args) != Handle(Credentials(user', true), true, uri', args')
  {
    SameTaskIff(Credentials(user, true), uri, args, Credentials(user', true), uri', args');
    SameTaskIff(Credentials(user', true), uri', args', Credentials(user, true), uri, args);
  }
}
