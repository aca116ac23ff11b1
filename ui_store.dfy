/** The client's UI store (campus-chat/src/store/uiStore.ts): whether the
    sidebar is open, which panel is shown, the modal dialog, and who is typing
    in which thread. Every action replaces some fields through zustand's `set`;
    `Store` holds those fields and each method changes them as its action
    does. `Apply` is the same transition on a state value, which the lemmas
    below reason about. The modal's `data` is `any` in the source, so its type
    is a parameter here. */
module UIStore {
  import opened Wrappers

  datatype Panel = Chat | Search | Files | Settings

  datatype ModalType = CreateChannel | ChannelSettings | UserSettings

  /** `ModalState`: `type` is `null` as `None`, a missing `data` as `None`. */
  datatype Modal<D> = Modal(isOpen: bool, kind: Option<ModalType>, data: Option<D>)

  /** `typingState[threadId][userId]` */
  type TypingState = map<string, map<string, bool>>

  datatype UIState<D> = UIState(sidebarOpen: bool, activePanel: Panel, modal: Modal<D>, typingState: TypingState)

  /** The actions of the store, one constructor each. */
  datatype Action<D> =
    | SetSidebarOpen(open: bool)
    | ToggleSidebar
    | SetActivePanel(panel: Panel)
    | OpenModal(openKind: Option<ModalType>, openData: Option<D>)
    | CloseModal
    | SetTypingState(threadId: string, userId: string, isTyping: bool)
    | ClearTypingState(clearedThread: string)

  /** The state the store is created with. */
  function Initial<D>(): (s: UIState<D>)
  {
    UIState(true, Chat, Modal(false, None, None), map[])
  }

  /** `setTypingState`: copy the outer map, and in it thread `t`'s map (empty
      when there was none) with `u` set to `b`. */
  function SetTyping(ts: TypingState, t: string, u: string, b: bool): (r: TypingState)
    ensures t in r && u in r[t] && r[t][u] == b
    ensures forall k :: k != t ==> (k in r <==> k in ts)
    ensures forall k :: k != t && k in ts ==> r[k] == ts[k]
    ensures forall v :: v != u ==> (v in r[t] <==> t in ts && v in ts[t])
    ensures forall v :: v != u && t in ts && v in ts[t] ==> r[t][v] == ts[t][v]
  {
    var inner := if t in ts then ts[t] else map[];
    ts[t := inner[u := b]]
  }

  /** `clearTypingState`: copy the outer map and delete thread `t`. */
  function ClearTyping(ts: TypingState, t: string): (r: TypingState)
    ensures t !in r
    ensures forall k :: k in r <==> k in ts && k != t
    ensures forall k :: k in r ==> r[k] == ts[k]
    ensures t !in ts ==> r == ts
  {
    ts - {t}
  }

  /** The state after one action. Each action touches only its own field. */
  function Apply<D>(s: UIState<D>, a: Action<D>): (r: UIState<D>)
    ensures !(a.SetSidebarOpen? || a.ToggleSidebar?) ==> r.sidebarOpen == s.sidebarOpen
    ensures !a.SetActivePanel? ==> r.activePanel == s.activePanel
    ensures !(a.OpenModal? || a.CloseModal?) ==> r.modal == s.modal
    ensures !(a.SetTypingState? || a.ClearTypingState?) ==> r.typingState == s.typingState
  {
    match a
    case SetSidebarOpen(open) => s.(sidebarOpen := open)
    case ToggleSidebar => s.(sidebarOpen := !s.sidebarOpen)
    case SetActivePanel(panel) => s.(activePanel := panel)
    case OpenModal(kind, data) => s.(modal := Modal(true, kind, data))
    case CloseModal => s.(modal := Modal(false, None, None))
    case SetTypingState(t, u, b) => s.(typingState := SetTyping(s.typingState, t, u, b))
    case ClearTypingState(t) => s.(typingState := ClearTyping(s.typingState, t))
  }

  // ----- properties of the transitions -----

  /** Toggling the sidebar twice restores it, and toggling agrees with
      setting it to the opposite value. */
  lemma ToggleTwice<D>(s: UIState<D>)
    ensures Apply(Apply(s, ToggleSidebar), ToggleSidebar) == s
    ensures Apply(s, ToggleSidebar) == Apply(s, SetSidebarOpen(!s.sidebarOpen))
  {
  }

  /** Opening then closing a modal leaves the same closed modal whatever was
      opened, and nothing else differs from before. */
  lemma OpenThenClose<D>(s: UIState<D>, kind: Option<ModalType>, data: Option<D>)
    ensures var r := Apply(Apply(s, OpenModal(kind, data)), CloseModal);
            r.modal == Modal(false, None, None) && r == Apply(s, CloseModal)
  {
  }

  /** After a clear, setting one user in that thread leaves exactly that user
      in the thread's map. */
  lemma {:induction false} ClearThenSet(ts: TypingState, t: string, u: string, b: bool)
    ensures SetTyping(ClearTyping(ts, t), t, u, b)[t] == map[u := b]
    ensures forall k :: k != t ==> (k in SetTyping(ClearTyping(ts, t), t, u, b) <==> k in ts)
  {
    var cleared := ClearTyping(ts, t);
    assert t !in cleared;
  }

  /** Clearing a thread is idempotent, and undoes a set on a thread that had
      no entry before. */
  lemma ClearUndoesFirstSet(ts: TypingState, t: string, u: string, b: bool)
    ensures ClearTyping(ClearTyping(ts, t), t) == ClearTyping(ts, t)
    ensures t !in ts ==> ClearTyping(SetTyping(ts, t, u, b), t) == ts
  {
  }

  /** Setting the same user twice keeps only the second value. */
  lemma {:induction false} SetTypingOverwrites(ts: TypingState, t: string, u: string, b: bool, c: bool)
    ensures SetTyping(SetTyping(ts, t, u, b), t, u, c) == SetTyping(ts, t, u, c)
  {
    var inner := if t in ts then ts[t] else map[];
    assert SetTyping(ts, t, u, b)[t] == inner[u := b];
    assert inner[u := b][u := c] == inner[u := c];
  }

  /** Typing updates for different users, or different threads, commute. */
  lemma {:induction false} SetTypingCommutes(ts: TypingState, t: string, u: string, b: bool, t2: string, u2: string, d: bool)
    requires (t, u) != (t2, u2)
    ensures SetTyping(SetTyping(ts, t, u, b), t2, u2, d) == SetTyping(SetTyping(ts, t2, u2, d), t, u, b)
  {
    if t == t2 {
      SetTypingSameThreadCommutes(ts, t, u, b, u2, d);
    } else {
      var one := SetTyping(SetTyping(ts, t, u, b), t2, u2, d);
      var two := SetTyping(SetTyping(ts, t2, u2, d), t, u, b);
      forall k | k in one
        ensures k in two && one[k] == two[k]
      {
      }
      assert one.Keys == two.Keys;
    }
  }

  lemma {:induction false} SetTypingSameThreadCommutes(ts: TypingState, t: string, u: string, b: bool, u2: string, d: bool)
    requires u != u2
    ensures SetTyping(SetTyping(ts, t, u, b), t, u2, d) == SetTyping(SetTyping(ts, t, u2, d), t, u, b)
  {
    var inner := if t in ts then ts[t] else map[];
    assert inner[u := b][u2 := d] == inner[u2 := d][u := b];
    assert SetTyping(SetTyping(ts, t, u, b), t, u2, d) == ts[t := inner[u := b][u2 := d]];
    assert SetTyping(SetTyping(ts, t, u2, d), t, u, b) == ts[t := inner[u2 := d][u := b]];
  }

  /** The store. Its fields are the state; every action method changes them as
      `Apply` says, and nothing else. */
  class Store<D> {
    var sidebarOpen: bool
    var activePanel: Panel
    var modal: Modal<D>
    var typingState: TypingState

    function State(): UIState<D>
      reads this
    {
      UIState(sidebarOpen, activePanel, modal, typingState)
    }

    constructor ()
      ensures sidebarOpen && activePanel == Chat && modal == Modal(false, None, None) && typingState == map[]
      ensures State() == Initial()
    {
      sidebarOpen := true;
      activePanel := Chat;
      modal := Modal(false, None, None);
      typingState := map[];
    }

    method SetSidebarOpen(open: bool)
      modifies this
      ensures sidebarOpen == open
      ensures State() == Apply(old(State()), Action.SetSidebarOpen(open))
    {
      sidebarOpen := open;
    }

    method ToggleSidebar()
      modifies this
      ensures sidebarOpen == !old(sidebarOpen)
      ensures State() == Apply(old(State()), Action.ToggleSidebar)
    {
      sidebarOpen := !sidebarOpen;
    }

    method SetActivePanel(panel: Panel)
      modifies this
      ensures activePanel == panel
      ensures State() == Apply(old(State()), Action.SetActivePanel(panel))
    {
      activePanel := panel;
    }

    method OpenModal(kind: Option<ModalType>, data: Option<D>)
      modifies this
      ensures modal.isOpen && modal.kind == kind && modal.data == data
      ensures State() == Apply(old(State()), Action.OpenModal(kind, data))
    {
      modal := Modal(true, kind, data);
    }

    method CloseModal()
      modifies this
      ensures !modal.isOpen && modal.kind.None? && modal.data.None?
      ensures State() == Apply(old(State()), Action.CloseModal)
    {
      modal := Modal(false, None, None);
    }

    method SetTypingState(threadId: string, userId: string, isTyping: bool)
      modifies this
      ensures threadId in typingState && userId in typingState[threadId]
      ensures typingState[threadId][userId] == isTyping
      ensures State() == Apply(old(State()), Action.SetTypingState(threadId, userId, isTyping))
    {
      typingState := SetTyping(typingState, threadId, userId, isTyping);
    }

    method ClearTypingState(threadId: string)
      modifies this
      ensures threadId !in typingState
      ensures State() == Apply(old(State()), Action.ClearTypingState(threadId))
    {
      typingState := ClearTyping(typingState, threadId);
    }
  }
}
