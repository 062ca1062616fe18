/**
 * The cursor table of `set_cursor`: each Servo cursor is shown through the GDK
 * cursor of the same CSS name (the cursor keywords of section 7.1.1 of CSS
 * Basic User Interface Module Level 3).
 */
module Cursors {
  import opened Wrappers

  /** Servo's cursors. */
  datatype Cursor =
    | None
    | Default
    | Help
    | Pointer
    | ContextMenu
    | Progress
    | Wait
    | Cell
    | Crosshair
    | Text
    | VerticalText
    | Alias
    | Copy
    | NoDrop
    | Move
    | NotAllowed
    | Grab
    | Grabbing
    | AllScroll
    | ColResize
    | RowResize
    | NResize
    | EResize
    | SResize
    | WResize
    | NeResize
    | NwResize
    | SwResize
    | SeResize
    | EwResize
    | NsResize
    | NeswResize
    | NwseResize
    | ZoomIn
    | ZoomOut

  /** The CSS cursor keyword `set_cursor` asks GDK for. */
  function CursorName(c: Cursor): (r: string)
    ensures |r| > 0
    ensures r[0] != '-' && r[|r| - 1] != '-'
  {
    match c
    case None => "none"
    case Default => "default"
    case Help => "help"
    case Pointer => "pointer"
    case ContextMenu => "context-menu"
    case Progress => "progress"
    case Wait => "wait"
    case Cell => "cell"
    case Crosshair => "crosshair"
    case Text => "text"
    case VerticalText => "vertical-text"
    case Alias => "alias"
    case Copy => "copy"
    case NoDrop => "no-drop"
    case Move => "move"
    case NotAllowed => "not-allowed"
    case Grab => "grab"
    case Grabbing => "grabbing"
    case AllScroll => "all-scroll"
    case ColResize => "col-resize"
    case RowResize => "row-resize"
    case NResize => "n-resize"
    case EResize => "e-resize"
    case SResize => "s-resize"
    case WResize => "w-resize"
    case NeResize => "ne-resize"
    case NwResize => "nw-resize"
    case SwResize => "sw-resize"
    case SeResize => "se-resize"
    case EwResize => "ew-resize"
    case NsResize => "ns-resize"
    case NeswResize => "nesw-resize"
    case NwseResize => "nwse-resize"
    case ZoomIn => "zoom-in"
    case ZoomOut => "zoom-out"
  }

  /** The cursor whose keyword is `name`, if any: the table read backwards. */
  function CursorNamed(name: string): Option<Cursor> {
    match name
    case "none" => Some(Cursor.None)
    case "default" => Some(Default)
    case "help" => Some(Help)
    case "pointer" => Some(Pointer)
    case "context-menu" => Some(ContextMenu)
    case "progress" => Some(Progress)
    case "wait" => Some(Wait)
    case "cell" => Some(Cell)
    case "crosshair" => Some(Crosshair)
    case "text" => Some(Text)
    case "vertical-text" => Some(VerticalText)
    case "alias" => Some(Alias)
    case "copy" => Some(Copy)
    case "no-drop" => Some(NoDrop)
    case "move" => Some(Move)
    case "not-allowed" => Some(NotAllowed)
    case "grab" => Some(Grab)
    case "grabbing" => Some(Grabbing)
    case "all-scroll" => Some(AllScroll)
    case "col-resize" => Some(ColResize)
    case "row-resize" => Some(RowResize)
    case "n-resize" => Some(NResize)
    case "e-resize" => Some(EResize)
    case "s-resize" => Some(SResize)
    case "w-resize" => Some(WResize)
    case "ne-resize" => Some(NeResize)
    case "nw-resize" => Some(NwResize)
    case "sw-resize" => Some(SwResize)
    case "se-resize" => Some(SeResize)
    case "ew-resize" => Some(EwResize)
    case "ns-resize" => Some(NsResize)
    case "nesw-resize" => Some(NeswResize)
    case "nwse-resize" => Some(NwseResize)
    case "zoom-in" => Some(ZoomIn)
    case "zoom-out" => Some(ZoomOut)
    case _ => Option.None
  }

  /** Every keyword names exactly the cursor it was produced for. */
  lemma {:induction false} CursorNameRoundTrip(c: Cursor)
    ensures CursorNamed(CursorName(c)) == Some(c)
  {
    match c
    case None => assert CursorNamed("none") == Some(Cursor.None);
    case Default => assert CursorNamed("default") == Some(Cursor.Default);
    case Help => assert CursorNamed("help") == Some(Cursor.Help);
    case Pointer => assert CursorNamed("pointer") == Some(Cursor.Pointer);
    case ContextMenu => assert CursorNamed("context-menu") == Some(Cursor.ContextMenu);
    case Progress => assert CursorNamed("progress") == Some(Cursor.Progress);
    case Wait => assert CursorNamed("wait") == Some(Cursor.Wait);
    case Cell => assert CursorNamed("cell") == Some(Cursor.Cell);
    case Crosshair => assert CursorNamed("crosshair") == Some(Cursor.Crosshair);
    case Text => assert CursorNamed("text") == Some(Cursor.Text);
    case VerticalText => assert CursorNamed("vertical-text") == Some(Cursor.VerticalText);
    case Alias => assert CursorNamed("alias") == Some(Cursor.Alias);
    case Copy => assert CursorNamed("copy") == Some(Cursor.Copy);
    case NoDrop => assert CursorNamed("no-drop") == Some(Cursor.NoDrop);
    case Move => assert CursorNamed("move") == Some(Cursor.Move);
    case NotAllowed => assert CursorNamed("not-allowed") == Some(Cursor.NotAllowed);
    case Grab => assert CursorNamed("grab") == Some(Cursor.Grab);
    case Grabbing => assert CursorNamed("grabbing") == Some(Cursor.Grabbing);
    case AllScroll => assert CursorNamed("all-scroll") == Some(Cursor.AllScroll);
    case ColResize => assert CursorNamed("col-resize") == Some(Cursor.ColResize);
    case RowResize => assert CursorNamed("row-resize") == Some(Cursor.RowResize);
    case NResize => assert CursorNamed("n-resize") == Some(Cursor.NResize);
    case EResize => assert CursorNamed("e-resize") == Some(Cursor.EResize);
    case SResize => assert CursorNamed("s-resize") == Some(Cursor.SResize);
    case WResize => assert CursorNamed("w-resize") == Some(Cursor.WResize);
    case NeResize => assert CursorNamed("ne-resize") == Some(Cursor.NeResize);
    case NwResize => assert CursorNamed("nw-resize") == Some(Cursor.NwResize);
    case SwResize => assert CursorNamed("sw-resize") == Some(Cursor.SwResize);
    case SeResize => assert CursorNamed("se-resize") == Some(Cursor.SeResize);
    case EwResize => assert CursorNamed("ew-resize") == Some(Cursor.EwResize);
    case NsResize => assert CursorNamed("ns-resize") == Some(Cursor.NsResize);
    case NeswResize => assert CursorNamed("nesw-resize") == Some(Cursor.NeswResize);
    case NwseResize => assert CursorNamed("nwse-resize") == Some(Cursor.NwseResize);
    case ZoomIn => assert CursorNamed("zoom-in") == Some(Cursor.ZoomIn);
    case ZoomOut => assert CursorNamed("zoom-out") == Some(Cursor.ZoomOut);
  }

  /** No two cursors share a keyword, so GDK is asked for a different cursor for each. */
  lemma CursorNamesDistinct(c: Cursor, d: Cursor)
    requires CursorName(c) == CursorName(d)
    ensures c == d
  {
    CursorNameRoundTrip(c);
    CursorNameRoundTrip(d);
  }
}
