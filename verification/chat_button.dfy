/** The draggable chat button (src/app/components/chat-button/chat-button.component.ts):
    a small state machine over `isDragging`, `position`, `dragOffset` and `showChat`.
    Whether a mousedown hit the button (`event.target.closest('.chat-button')`) and the
    window size are parameters. */
module ChatButton {

  datatype Vec = Vec(x: int, y: int)

  function Plus(a: Vec, b: Vec): Vec { Vec(a.x + b.x, a.y + b.y) }

  function Minus(a: Vec, b: Vec): Vec { Vec(a.x - b.x, a.y - b.y) }

  datatype ButtonState = ButtonState(isDragging: bool, position: Vec, dragOffset: Vec, showChat: bool)

  /** The field initialisers. */
  const Initial: ButtonState := ButtonState(false, Vec(20, 20), Vec(0, 0), false)

  /** `ngOnInit`: the bottom-right corner, 100 pixels in from each edge. */
  function Init(s: ButtonState, innerWidth: int, innerHeight: int): (r: ButtonState)
    ensures r.position == Vec(innerWidth - 100, innerHeight - 100)
    ensures r.isDragging == s.isDragging && r.dragOffset == s.dragOffset && r.showChat == s.showChat
  {
    s.(position := Vec(innerWidth - 100, innerHeight - 100))
  }

  /** `onMouseDown`: on the button, start dragging and remember where in the button the
      pointer is; anywhere else, nothing. */
  function MouseDown(s: ButtonState, onButton: bool, client: Vec): ButtonState
  {
    if onButton then s.(isDragging := true, dragOffset := Minus(client, s.position)) else s
  }

  /** `onMouseMove`: while dragging, the button follows the pointer. */
  function MouseMove(s: ButtonState, client: Vec): ButtonState
  {
    if s.isDragging then s.(position := Minus(client, s.dragOffset)) else s
  }

  /** `onMouseUp` */
  function MouseUp(s: ButtonState): ButtonState
  {
    s.(isDragging := false)
  }

  /** `toggleChat`: only when not dragging. */
  function Toggle(s: ButtonState): ButtonState
  {
    if s.isDragging then s else s.(showChat := !s.showChat)
  }

  /** A sequence of pointer moves. */
  function MoveAll(s: ButtonState, clients: seq<Vec>): ButtonState
    decreases |clients|
  {
    if clients == [] then s else MoveAll(MouseMove(s, clients[0]), clients[1..])
  }

  /** A mousedown on the button keeps the position, and a move to the very point of the
      mousedown keeps it too; a mousedown elsewhere changes nothing. */
  lemma MouseDownKeepsPosition(s: ButtonState, onButton: bool, client: Vec)
    ensures MouseDown(s, onButton, client).position == s.position
    ensures onButton ==> MouseDown(s, onButton, client).isDragging
    ensures onButton ==> Plus(s.position, MouseDown(s, onButton, client).dragOffset) == client
    ensures onButton ==> MouseMove(MouseDown(s, onButton, client), client).position == s.position
    ensures !onButton ==> MouseDown(s, onButton, client) == s
  {
  }

  /** While dragging, after a move the button's position plus the drag offset is the
      pointer; when not dragging a move changes nothing. */
  lemma MouseMoveTracksPointer(s: ButtonState, client: Vec)
    ensures s.isDragging ==> Plus(MouseMove(s, client).position, s.dragOffset) == client
    ensures s.isDragging ==> MouseMove(s, client) == s.(position := MouseMove(s, client).position)
    ensures !s.isDragging ==> MouseMove(s, client) == s
  {
  }

  /** A whole drag: press on the button at `start`, move through `clients`, release. The
      button is moved by the displacement from `start` to the last pointer position and
      is no longer dragging; nothing else changes. */
  lemma {:induction false} DragMovesByDisplacement(s: ButtonState, start: Vec, clients: seq<Vec>)
    requires clients != []
    ensures var r := MouseUp(MoveAll(MouseDown(s, true, start), clients));
            r.position == Plus(s.position, Minus(clients[|clients| - 1], start)) &&
            !r.isDragging && r.showChat == s.showChat
  {
    MoveAllWhileDragging(MouseDown(s, true, start), clients);
  }

  lemma {:induction false} MoveAllWhileDragging(s: ButtonState, clients: seq<Vec>)
    requires s.isDragging && clients != []
    ensures MoveAll(s, clients) == s.(position := Minus(clients[|clients| - 1], s.dragOffset))
    decreases |clients|
  {
    if |clients| > 1 {
      MoveAllWhileDragging(MouseMove(s, clients[0]), clients[1..]);
    }
  }

  /** `onMouseUp` ends a drag and changes nothing else. */
  lemma MouseUpOnlyStopsDragging(s: ButtonState)
    ensures !MouseUp(s).isDragging
    ensures MouseUp(s).position == s.position && MouseUp(s).dragOffset == s.dragOffset
    ensures MouseUp(s).showChat == s.showChat
  {
  }

  /** Toggling twice restores the chat's visibility; while dragging, toggling does nothing. */
  lemma ToggleTwice(s: ButtonState)
    ensures Toggle(Toggle(s)) == s
    ensures !s.isDragging ==> Toggle(s).showChat == !s.showChat
    ensures s.isDragging ==> Toggle(s) == s
  {
  }

  /** The component. */
  class ChatButtonComponent {
    var isDragging: bool
    var position: Vec
    var dragOffset: Vec
    var showChat: bool

    function State(): ButtonState
      reads this
    {
      ButtonState(isDragging, position, dragOffset, showChat)
    }

    constructor ()
      ensures State() == Initial
    {
      isDragging := false;
      position := Vec(20, 20);
      dragOffset := Vec(0, 0);
      showChat := false;
    }

    method NgOnInit(innerWidth: int, innerHeight: int)
      modifies this
      ensures State() == Init(old(State()), innerWidth, innerHeight)
    {
      position := Vec(innerWidth - 100, innerHeight - 100);
    }

    method OnMouseDown(onButton: bool, clientX: int, clientY: int)
      modifies this
      ensures State() == MouseDown(old(State()), onButton, Vec(clientX, clientY))
    {
      if onButton {
        isDragging := true;
        dragOffset := Vec(clientX - position.x, clientY - position.y);
      }
    }

    method OnMouseMove(clientX: int, clientY: int)
      modifies this
      ensures State() == MouseMove(old(State()), Vec(clientX, clientY))
    {
      if isDragging {
        position := Vec(clientX - dragOffset.x, clientY - dragOffset.y);
      }
    }

    method OnMouseUp()
      modifies this
      ensures State() == MouseUp(old(State()))
    {
      isDragging := false;
    }

    method ToggleChat()
      modifies this
      ensures State() == Toggle(old(State()))
    {
      if !isDragging {
        showChat := !showChat;
      }
    }
  }
}
