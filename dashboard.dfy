/** The dashboard's logic (campus-chat/src/pages/dashboard/useDashboardLogic.ts):
    which channel and thread the URL selects, how the URL is updated, when a
    message or a file may be sent, how chat commands are parsed and answered,
    and channel pagination.

    Query strings are `URLSearchParams` lists of name/value pairs, kept as
    decoded pairs (percent-encoding is not modelled). What the handlers ask
    of the network is returned as a list of `Outbound` requests, and what the
    network answers is passed in as parameters. */
module DashboardLogic {
  import opened Wrappers
  import opened Text
  import UIStore

  // ----- URLSearchParams -----

  type Params = seq<(string, string)>

  /** `getAll(name)`: the values of `name`, in order. */
  function ValuesOf(ps: Params, name: string): (vs: seq<string>)
    ensures |vs| <= |ps|
  {
    if ps == [] then []
    else if ps[0].0 == name then [ps[0].1] + ValuesOf(ps[1..], name)
    else ValuesOf(ps[1..], name)
  }

  /** `get(name)`: the value of the first pair named `name`, `null` as `None`. */
  function Get(ps: Params, name: string): (r: Option<string>)
    ensures r == (if ValuesOf(ps, name) == [] then None else Some(ValuesOf(ps, name)[0]))
  {
    if ps == [] then None
    else if ps[0].0 == name then Some(ps[0].1)
    else Get(ps[1..], name)
  }

  /** `delete(name)`: every pair named `name` goes, the rest keep their order. */
  function DeleteParam(ps: Params, name: string): (r: Params)
    ensures ValuesOf(r, name) == []
    ensures forall m :: m != name ==> ValuesOf(r, m) == ValuesOf(ps, m)
    ensures ValuesOf(ps, name) == [] ==> r == ps
  {
    if ps == [] then []
    else if ps[0].0 == name then DeleteParam(ps[1..], name)
    else [ps[0]] + DeleteParam(ps[1..], name)
  }

  /** `set(name, value)`: the first pair named `name` takes the value and the
      later ones go; with no such pair, one is appended. */
  function SetParam(ps: Params, name: string, value: string): (r: Params)
  {
    if ValuesOf(ps, name) == [] then ps + [(name, value)]
    else ReplaceFirst(ps, name, value)
  }

  function ReplaceFirst(ps: Params, name: string, value: string): (r: Params)
  {
    if ps == [] then []
    else if ps[0].0 == name then [(name, value)] + DeleteParam(ps[1..], name)
    else [ps[0]] + ReplaceFirst(ps[1..], name, value)
  }

  lemma {:induction false} ValuesOfAppend(ps: Params, qs: Params, name: string)
    ensures ValuesOf(ps + qs, name) == ValuesOf(ps, name) + ValuesOf(qs, name)
    decreases |ps|
  {
    if ps != [] {
      assert (ps + qs)[1..] == ps[1..] + qs;
      ValuesOfAppend(ps[1..], qs, name);
    } else {
      assert ps + qs == qs;
    }
  }

  lemma {:induction false} DeleteParamAppend(ps: Params, qs: Params, name: string)
    ensures DeleteParam(ps + qs, name) == DeleteParam(ps, name) + DeleteParam(qs, name)
    decreases |ps|
  {
    if ps != [] {
      assert (ps + qs)[1..] == ps[1..] + qs;
      DeleteParamAppend(ps[1..], qs, name);
    } else {
      assert ps + qs == qs;
    }
  }

  /** The pairs named `name` stay in front of the others in the same way after
      a replacement: `ReplaceFirst` leaves a single pair for `name`, and the
      other pairs as they were. */
  lemma {:induction false} ReplaceFirstEffect(ps: Params, name: string, value: string)
    requires ValuesOf(ps, name) != []
    ensures ValuesOf(ReplaceFirst(ps, name, value), name) == [value]
    ensures DeleteParam(ReplaceFirst(ps, name, value), name) == DeleteParam(ps, name)
    decreases |ps|
  {
    if ps[0].0 != name {
      ReplaceFirstEffect(ps[1..], name, value);
    }
  }

  /** After `set(name, value)` the name has exactly that one value, and the
      pairs of every other name are the same pairs in the same order. */
  lemma {:induction false} SetParamEffect(ps: Params, name: string, value: string)
    ensures ValuesOf(SetParam(ps, name, value), name) == [value]
    ensures Get(SetParam(ps, name, value), name) == Some(value)
    ensures DeleteParam(SetParam(ps, name, value), name) == DeleteParam(ps, name)
    ensures forall m :: m != name ==> ValuesOf(SetParam(ps, name, value), m) == ValuesOf(ps, m)
  {
    var r := SetParam(ps, name, value);
    if ValuesOf(ps, name) == [] {
      ValuesOfAppend(ps, [(name, value)], name);
      DeleteParamAppend(ps, [(name, value)], name);
      assert DeleteParam([(name, value)], name) == [];
      assert DeleteParam(r, name) == DeleteParam(ps, name) + [];
      assert DeleteParam(ps, name) + [] == DeleteParam(ps, name);
    } else {
      ReplaceFirstEffect(ps, name, value);
    }
    forall m | m != name
      ensures ValuesOf(r, m) == ValuesOf(ps, m)
    {
      assert ValuesOf(DeleteParam(r, name), m) == ValuesOf(r, m);
      assert ValuesOf(DeleteParam(ps, name), m) == ValuesOf(ps, m);
    }
  }

  lemma {:induction false} DeleteParamCommutes(ps: Params, a: string, b: string)
    ensures DeleteParam(DeleteParam(ps, a), b) == DeleteParam(DeleteParam(ps, b), a)
    decreases |ps|
  {
    if ps != [] {
      DeleteParamCommutes(ps[1..], a, b);
    }
  }

  /** `URLSearchParams`, updated in place by `set` and `delete`. */
  class SearchParams {
    var entries: Params

    constructor (init: Params)
      ensures entries == init
    {
      entries := init;
    }

    method Set(name: string, value: string)
      modifies this
      ensures entries == SetParam(old(entries), name, value)
    {
      entries := SetParam(entries, name, value);
    }

    method Delete(name: string)
      modifies this
      ensures entries == DeleteParam(old(entries), name)
    {
      entries := DeleteParam(entries, name);
    }
  }

  // ----- updateRoute -----

  /** `navigate({ pathname, search }, { replace })` */
  datatype Navigation = Navigation(pathname: string, search: Params, replace: bool)

  /** The query string `updateRoute` builds from the current one. */
  function RouteParams(current: Params, channelId: Option<string>, threadId: Option<string>): (r: Params)
  {
    var withChannel := if channelId.Some? then SetParam(current, "channel", channelId.value) else current;
    if threadId.Some? then SetParam(withChannel, "thread", threadId.value) else DeleteParam(withChannel, "thread")
  }

  /** Every pair other than `channel` and `thread`, in order. */
  function Others(ps: Params): (r: Params)
    ensures ValuesOf(r, "channel") == [] && ValuesOf(r, "thread") == []
  {
    DeleteParam(DeleteParam(ps, "thread"), "channel")
  }

  /** `updateRoute`: `channel` is set only when a channel id is given and
      kept otherwise; `thread` is set when a thread id is given and removed
      otherwise; every other parameter is kept, in order; the path is `/app`
      and the history entry is replaced. */
  lemma {:induction false} RouteParamsEffect(current: Params, channelId: Option<string>, threadId: Option<string>)
    ensures var r := RouteParams(current, channelId, threadId);
            && ValuesOf(r, "channel") == (if channelId.Some? then [channelId.value] else ValuesOf(current, "channel"))
            && ValuesOf(r, "thread") == (if threadId.Some? then [threadId.value] else [])
            && Others(r) == Others(current)
  {
    var withChannel := if channelId.Some? then SetParam(current, "channel", channelId.value) else current;
    if channelId.Some? {
      SetParamEffect(current, "channel", channelId.value);
    }
    assert ValuesOf(withChannel, "channel") == (if channelId.Some? then [channelId.value] else ValuesOf(current, "channel"));
    assert Others(withChannel) == Others(current) by {
      if channelId.Some? {
        DeleteParamCommutes(withChannel, "thread", "channel");
        DeleteParamCommutes(current, "thread", "channel");
      }
    }
    var r := RouteParams(current, channelId, threadId);
    if threadId.Some? {
      SetParamEffect(withChannel, "thread", threadId.value);
    } else {
      assert DeleteParam(r, "thread") == r;
    }
    assert ValuesOf(r, "channel") == ValuesOf(withChannel, "channel");
  }

  /** `updateRoute`, on a copy of the current query string. */
  method UpdateRoute(current: Params, channelId: Option<string>, threadId: Option<string>) returns (nav: Navigation)
    ensures nav.pathname == "/app" && nav.replace
    ensures nav.search == RouteParams(current, channelId, threadId)
    ensures channelId.Some? ==> Get(nav.search, "channel") == channelId
    ensures channelId.None? ==> Get(nav.search, "channel") == Get(current, "channel")
    ensures Get(nav.search, "thread") == threadId
    ensures Others(nav.search) == Others(current)
  {
    var params := new SearchParams(current);
    if channelId.Some? {
      params.Set("channel", channelId.value);
    }
    if threadId.Some? {
      params.Set("thread", threadId.value);
    } else {
      params.Delete("thread");
    }
    nav := Navigation("/app", params.entries, true);
    RouteParamsEffect(current, channelId, threadId);
  }

  // ----- what the URL selects -----

  datatype Channel = Channel(id: string)

  /** A thread; `uuid` is the id the message service knows it by, when given. */
  datatype Thread = Thread(id: string, uuid: Option<string>)

  /** What the hook reads: the query string, the listed channels and threads,
      and the signed-in user's id. */
  datatype View = View(search: Params, channels: seq<Channel>, threads: seq<Thread>, userId: Option<string>)

  const ChannelsPerPage := 10

  /** `searchParams.get("channel") ?? channels[0]?.id` */
  function SelectedChannelId(v: View): (r: Option<string>)
    ensures Get(v.search, "channel").Some? ==> r == Get(v.search, "channel")
    ensures Get(v.search, "channel").None? ==> (r.Some? <==> v.channels != [])
    ensures Get(v.search, "channel").None? && r.Some? ==> r.value == v.channels[0].id
  {
    match Get(v.search, "channel")
    case Some(id) => Some(id)
    case None => if v.channels != [] then Some(v.channels[0].id) else None
  }

  function SelectedThreadId(v: View): Option<string>
  {
    Get(v.search, "thread")
  }

  /** `threads.find(thread => thread.id === selectedThreadId)`, as an index. */
  function FindThread(threads: seq<Thread>, id: Option<string>): (k: Option<nat>)
    ensures k.Some? ==> k.value < |threads| && id == Some(threads[k.value].id)
    ensures k.Some? ==> forall j :: 0 <= j < k.value ==> Some(threads[j].id) != id
    ensures k.None? ==> forall j :: 0 <= j < |threads| ==> Some(threads[j].id) != id
  {
    if id.None? || threads == [] then None
    else if threads[0].id == id.value then Some(0)
    else match FindThread(threads[1..], id)
      case Some(k) => Some(k + 1)
      case None => None
  }

  /** `selectedThread?.uuid ?? selectedThreadId` */
  function ThreadIdForMessages(v: View): (r: Option<string>)
    ensures r.None? <==> SelectedThreadId(v).None?
    ensures var k := FindThread(v.threads, SelectedThreadId(v));
            k.Some? && v.threads[k.value].uuid.Some? ==> r == v.threads[k.value].uuid
    ensures var k := FindThread(v.threads, SelectedThreadId(v));
            k.None? || v.threads[k.value].uuid.None? ==> r == SelectedThreadId(v)
  {
    match FindThread(v.threads, SelectedThreadId(v))
    case Some(k) => if v.threads[k].uuid.Some? then v.threads[k].uuid else SelectedThreadId(v)
    case None => SelectedThreadId(v)
  }

  /** Neither missing, empty nor the string `"null"`. */
  predicate IsUsableId(id: Option<string>)
  {
    id.Some? && id.value != "" && id.value != "null"
  }

  /** The guard of `handleSendMessage`. */
  predicate CanSend(v: View)
  {
    IsUsableId(SelectedChannelId(v)) && IsUsableId(SelectedThreadId(v))
  }

  /** The guard of `handleUpload`. */
  predicate CanUpload(v: View)
  {
    IsUsableId(ThreadIdForMessages(v)) && IsUsableId(SelectedChannelId(v))
  }

  /** `enabled` of the shared-files query: also refuses `"undefined"`. */
  predicate FilesQueryEnabled(v: View)
  {
    IsUsableId(ThreadIdForMessages(v)) && ThreadIdForMessages(v).value != "undefined"
  }

  /** After `updateRoute` the dashboard selects what was asked for: the given
      channel (or, without one, the one selected before), and the given
      thread or none. */
  lemma NavigationSelects(v: View, channelId: Option<string>, threadId: Option<string>)
    ensures var after := v.(search := RouteParams(v.search, channelId, threadId));
            && SelectedChannelId(after) == (if channelId.Some? then channelId else SelectedChannelId(v))
            && SelectedThreadId(after) == threadId
  {
    RouteParamsEffect(v.search, channelId, threadId);
  }

  /** A message can be sent only for a chosen thread, so messages have a thread
      to go to; when that thread is listed with a usable `uuid`, or not listed,
      an upload is allowed too. */
  lemma {:induction false} SendGuardAndThreadId(v: View)
    ensures CanSend(v) ==> ThreadIdForMessages(v).Some?
    ensures CanSend(v) && FindThread(v.threads, SelectedThreadId(v)).None? ==> CanUpload(v)
    ensures SelectedThreadId(v).None? ==> !CanSend(v) && !CanUpload(v)
  {
    if SelectedThreadId(v).None? {
      assert FindThread(v.threads, None).None?;
    }
  }

  /** When the selected thread is not listed, or listed without a `uuid`,
      messages go to the selected id itself, and sending and uploading are
      allowed in exactly the same cases. */
  lemma SendAndUploadAgree(v: View)
    requires var k := FindThread(v.threads, SelectedThreadId(v));
             k.None? || v.threads[k.value].uuid.None?
    ensures ThreadIdForMessages(v) == SelectedThreadId(v)
    ensures CanSend(v) <==> CanUpload(v)
  {
  }

  /** Whenever the shared-files query runs and a channel is chosen, an upload
      is allowed; the query is the stricter of the two on the thread id. */
  lemma FilesQueryImpliesUpload(v: View)
    ensures FilesQueryEnabled(v) && IsUsableId(SelectedChannelId(v)) ==> CanUpload(v)
    ensures FilesQueryEnabled(v) ==> IsUsableId(ThreadIdForMessages(v))
  {
  }

  // ----- requests to the services -----

  datatype MessageKind = TextMessage | AudioMessage | FileMessage

  datatype Bot = Wikipedia | Programming

  /** `ModerateMessageResponse`, the fields the dashboard reads. */
  datatype Verdict = Verdict(isApproved: bool, message: string)

  /** `uploadFile`'s answer, the fields the dashboard reads. */
  datatype UploadedFile = UploadedFile(id: string, filename: string)

  datatype Outbound =
    | SendMessage(threadId: Option<string>, content: string, kind: Option<MessageKind>, paths: seq<string>)
    | Moderate(messageId: string, userId: string, channelId: string, content: string)
    | UploadFile(uploadThread: string, fileName: string)
    | AskBot(bot: Bot, message: string)

  /** `handleUpload`: when allowed, the upload, then (when it succeeded) a file
      message naming it in the same thread. */
  function UploadRequests(v: View, fileName: string, uploaded: Option<UploadedFile>): (r: seq<Outbound>)
    ensures !CanUpload(v) ==> r == []
    ensures CanUpload(v) ==> |r| == (if uploaded.Some? then 2 else 1)
    ensures CanUpload(v) ==> r[0] == UploadFile(ThreadIdForMessages(v).value, fileName)
    ensures CanUpload(v) && uploaded.Some? ==>
              && r[1].SendMessage? && r[1].threadId == Some(r[0].uploadThread)
              && r[1].content == "Archivo compartido: " + uploaded.value.filename
              && r[1].kind == Some(FileMessage) && r[1].paths == [uploaded.value.id]
  {
    if !CanUpload(v) then []
    else
      var thread := ThreadIdForMessages(v).value;
      [UploadFile(thread, fileName)] +
      match uploaded
      case None => []
      case Some(f) => [SendMessage(Some(thread), "Archivo compartido: " + f.filename, Some(FileMessage), [f.id])]
  }

  // ----- handleCommand -----

  /** `const [cmd, ...rest] = command.split(" ")` and
      `rest.join(" ").trim() || "Necesito información"` */
  function ParseCommand(command: string): (r: (string, string))
    ensures r.0 == command[..IndexOfAny(command, {' '})] && ' ' !in r.0
    ensures r.1 != ""
  {
    SplitFirst(command, ' ');
    var parts := Split(command, ' ');
    var rest := Trim(Join(parts[1..], ' '));
    (parts[0], if rest == "" then "Necesito información" else rest)
  }

  /** The command is the text before the first space; the payload is
      everything after it, trimmed, or the default question when that is
      blank. */
  lemma {:induction false} ParseCommandMeaning(command: string)
    ensures var i := IndexOfAny(command, {' '});
            var after := if i < |command| then command[i + 1..] else "";
            && ParseCommand(command).0 == command[..i]
            && ParseCommand(command).1 == (if Trim(after) == "" then "Necesito información" else Trim(after))
  {
    SplitFirst(command, ' ');
  }

  /** `bots` maps exactly these two commands. */
  function BotFor(cmd: string): (b: Option<Bot>)
    ensures b.Some? <==> cmd == "/wiki" || cmd == "/code"
  {
    if cmd == "/wiki" then Some(Wikipedia)
    else if cmd == "/code" then Some(Programming)
    else None
  }

  /** `cmd.slice(1).charAt(0).toUpperCase() + cmd.slice(2)` */
  function ReplyPrefix(cmd: string): (p: string)
    ensures |cmd| >= 1 ==> |p| == |cmd| - 1
    ensures |cmd| >= 2 ==> p[1..] == cmd[2..] && LowerChar(p[0]) == LowerChar(cmd[1])
    ensures |cmd| >= 2 ==> p[0] == UpperChar(cmd[1]) && !('a' <= p[0] <= 'z')
    ensures |cmd| < 2 ==> p == ""
  {
    if |cmd| < 2 then "" else [UpperChar(cmd[1])] + cmd[2..]
  }

  lemma ReplyPrefixes()
    ensures ReplyPrefix("/wiki") == "Wiki" && ReplyPrefix("/code") == "Code"
  {
  }

  /** The text `handleCommand` hands to `handleSendMessage`, if any: the bot's
      answer behind the capitalised command name, or the error line when the
      bot call failed (`ask` gives `None` for a rejected call). */
  function CommandResponse(command: string, ask: (Bot, string) -> Option<string>): (r: Option<string>)
    ensures r.Some? <==> BotFor(ParseCommand(command).0).Some?
    ensures r.Some? ==> r.value != ""
  {
    var (cmd, payload) := ParseCommand(command);
    match BotFor(cmd)
    case None => None
    case Some(bot) =>
      match ask(bot, payload)
      case Some(answer) => Some(ReplyPrefix(cmd) + ": " + answer)
      case None => Some("Error: No se pudo procesar el comando " + cmd)
  }

  /** `/wiki` asks the Wikipedia bot and `/code` the programming bot with the
      parsed payload; the reply starts with `Wiki: ` or `Code: `, and a
      failure names the command. Anything else produces nothing to send. */
  lemma {:induction false} CommandReplies(command: string, ask: (Bot, string) -> Option<string>)
    ensures var (cmd, payload) := ParseCommand(command);
            && (cmd == "/wiki" && ask(Wikipedia, payload).Some? ==>
                  CommandResponse(command, ask) == Some("Wiki: " + ask(Wikipedia, payload).value))
            && (cmd == "/code" && ask(Programming, payload).Some? ==>
                  CommandResponse(command, ask) == Some("Code: " + ask(Programming, payload).value))
            && (BotFor(cmd).Some? && ask(BotFor(cmd).value, payload).None? ==>
                  CommandResponse(command, ask) == Some("Error: No se pudo procesar el comando " + cmd))
            && (cmd != "/wiki" && cmd != "/code" ==> CommandResponse(command, ask).None?)
  {
    var (cmd, payload) := ParseCommand(command);
    ReplyPrefixes();
    if cmd == "/wiki" && ask(Wikipedia, payload).Some? {
      assert ReplyPrefix(cmd) + ": " + ask(Wikipedia, payload).value == "Wiki: " + ask(Wikipedia, payload).value;
    }
    if cmd == "/code" && ask(Programming, payload).Some? {
      assert ReplyPrefix(cmd) + ": " + ask(Programming, payload).value == "Code: " + ask(Programming, payload).value;
    }
  }

  /** A command name, one space and the rest: the name is the command and
      the rest, trimmed, the payload (so `/wiki que es dafny` asks about
      `que es dafny`). */
  lemma ParseNamedCommand(name: string, rest: string)
    requires ' ' !in name
    ensures ParseCommand(name + [' '] + rest) == (name, if Trim(rest) == "" then "Necesito información" else Trim(rest))
  {
    var c := name + [' '] + rest;
    assert c == name + ([' '] + rest);
    IndexOfAnySkip(name, [' '] + rest, {' '});
    ParseCommandMeaning(c);
    assert c[..|name|] == name;
    assert c[|name| + 1..] == rest;
  }

  /** A bare `/code` asks the programming bot the default question. */
  lemma BareCodeCommandExample()
    ensures ParseCommand("/code") == ("/code", "Necesito información")
  {
    var c := "/code";
    assert forall k :: 0 <= k < |c| ==> c[k] != ' ';
    assert IndexOfAny(c, {' '}) == |c|;
    ParseCommandMeaning(c);
    assert c[..|c|] == c;
  }

  lemma TrimOfUnpadded(s: string)
    requires s != [] && !IsJsSpace(s[0]) && !IsJsSpace(s[|s| - 1])
    ensures Trim(s) == s
  {
    assert TrimStart(s) == s;
    assert TrimEnd(s) == s;
  }

  // ----- pagination -----

  function NextPage(p: int): (r: int)
  {
    p + 1
  }

  /** `Math.max(1, p - 1)` */
  function PrevPage(p: int): (r: int)
    ensures r >= 1 && r >= p - 1
    ensures p > 1 ==> r == p - 1
  {
    if p - 1 > 1 then p - 1 else 1
  }

  /** A full page (exactly `CHANNELS_PER_PAGE` channels) suggests more. */
  predicate HasMoreChannels(channels: seq<Channel>)
  {
    |channels| == ChannelsPerPage
  }

  /** Pagination is offered exactly after a full page: a short page, the last
      one, offers no next page. */
  lemma FullPageOffersMore(channels: seq<Channel>)
    ensures HasMoreChannels(channels) <==> |channels| == 10
    ensures |channels| < ChannelsPerPage ==> !HasMoreChannels(channels)
  {
  }

  /** Going back never leaves page 1 and undoes going forward; going forward
      from any page reached this way never returns to where it started. */
  lemma PagesStayPositive(p: int)
    requires p >= 1
    ensures PrevPage(NextPage(p)) == p
    ensures NextPage(p) > p && PrevPage(p) <= p
    ensures PrevPage(1) == 1
  {
  }

  // ----- the hook's own state -----

  /** `moderationNotes` and `channelPage`, the state the handlers update. */
  class Dashboard {
    var moderationNotes: map<string, string>
    var channelPage: int

    predicate Valid()
      reads this
    {
      channelPage >= 1
    }

    constructor ()
      ensures Valid() && channelPage == 1 && moderationNotes == map[]
    {
      moderationNotes := map[];
      channelPage := 1;
    }

    method NextChannelPage()
      requires Valid()
      modifies this`channelPage
      ensures Valid() && channelPage == NextPage(old(channelPage))
    {
      channelPage := channelPage + 1;
    }

    method PrevChannelPage()
      requires Valid()
      modifies this`channelPage
      ensures Valid() && channelPage == PrevPage(old(channelPage))
    {
      channelPage := if channelPage - 1 > 1 then channelPage - 1 else 1;
    }

    /** `handleSendMessage`: when the guard holds, send the message to the
        thread the messages are read from, then ask moderation about it
        (with the user id, or `""` when signed out), and note a rejection
        under the message id. `sentId` is the new message's id (`None`: the
        send failed and the handler stops), `verdict` moderation's answer
        (`None`: that call failed). */
    method HandleSendMessage(v: View, content: string, sentId: Option<string>, verdict: Option<Verdict>)
      returns (requests: seq<Outbound>)
      modifies this`moderationNotes
      ensures !CanSend(v) ==> requests == [] && moderationNotes == old(moderationNotes)
      ensures CanSend(v) ==> |requests| == (if sentId.Some? then 2 else 1)
      ensures CanSend(v) ==> requests[0] == SendMessage(ThreadIdForMessages(v), content, None, [])
      ensures CanSend(v) && sentId.Some? ==>
                requests[1] == Moderate(sentId.value, v.userId.GetOr(""), SelectedChannelId(v).value, content)
      ensures moderationNotes ==
                if CanSend(v) && sentId.Some? && verdict.Some? && !verdict.value.isApproved
                then old(moderationNotes)[sentId.value := verdict.value.message]
                else old(moderationNotes)
    {
      if !CanSend(v) {
        return [];
      }
      requests := [SendMessage(ThreadIdForMessages(v), content, None, [])];
      if sentId.None? {
        return;
      }
      var channel := SelectedChannelId(v).value;
      requests := requests + [Moderate(sentId.value, v.userId.GetOr(""), channel, content)];
      if verdict.Some? && !verdict.value.isApproved {
        moderationNotes := moderationNotes[sentId.value := verdict.value.message];
      }
    }

    /** `handleCommand`: ask the command's bot, then send the reply through
        `handleSendMessage`. Other commands send nothing. */
    method HandleCommand(v: View, command: string, ask: (Bot, string) -> Option<string>,
                         sentId: Option<string>, verdict: Option<Verdict>)
      returns (requests: seq<Outbound>)
      modifies this`moderationNotes
      ensures BotFor(ParseCommand(command).0).None? ==> requests == [] && moderationNotes == old(moderationNotes)
      ensures BotFor(ParseCommand(command).0).Some? ==>
                |requests| >= 1 && requests[0] == AskBot(BotFor(ParseCommand(command).0).value, ParseCommand(command).1)
      ensures BotFor(ParseCommand(command).0).Some? ==>
                |requests| == 1 + (if !CanSend(v) then 0 else if sentId.Some? then 2 else 1)
      ensures BotFor(ParseCommand(command).0).Some? && CanSend(v) ==>
                requests[1] == SendMessage(ThreadIdForMessages(v), CommandResponse(command, ask).value, None, [])
      ensures BotFor(ParseCommand(command).0).Some? && CanSend(v) && sentId.Some? ==>
                requests[2] == Moderate(sentId.value, v.userId.GetOr(""), SelectedChannelId(v).value, CommandResponse(command, ask).value)
      ensures moderationNotes ==
                if BotFor(ParseCommand(command).0).Some? && CanSend(v) && sentId.Some? && verdict.Some? && !verdict.value.isApproved
                then old(moderationNotes)[sentId.value := verdict.value.message]
                else old(moderationNotes)
    {
      var (cmd, payload) := ParseCommand(command);
      var response := CommandResponse(command, ask);
      if response.None? {
        return [];
      }
      var bot := BotFor(cmd).value;
      var sent := HandleSendMessage(v, response.value, sentId, verdict);
      requests := [AskBot(bot, payload)] + sent;
    }
  }

  /** `onTyping`: with a thread to show, a typing user is set and a stopped
      one clears the whole thread; without one nothing changes. */
  method OnTyping<D>(store: UIStore.Store<D>, v: View, userId: string, isTyping: bool)
    modifies store
    ensures var t := ThreadIdForMessages(v);
            store.State() ==
              if t.None? || t.value == "" then old(store.State())
              else if isTyping then UIStore.Apply(old(store.State()), UIStore.SetTypingState(t.value, userId, true))
              else UIStore.Apply(old(store.State()), UIStore.ClearTypingState(t.value))
  {
    var t := ThreadIdForMessages(v);
    if t.None? || t.value == "" {
      return;
    }
    if isTyping {
      store.SetTypingState(t.value, userId, true);
    } else {
      store.ClearTypingState(t.value);
    }
  }
}
