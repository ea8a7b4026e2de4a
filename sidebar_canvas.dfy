/**
 * `SidebarCanvasEvent`: collects what listeners contribute to the three canvases
 * of the sidebar (left, right, main). Each push replaces one canvas with exactly
 * the sections header, footer and content, taking each supplied section that is
 * set and an empty string for the rest.
 */
module SidebarCanvas {
  import opened Wrappers
  import opened Php

  datatype CanvasName = Left | Right | Main

  /** The key under which `getCanvasContent()` returns each canvas. */
  function CanvasKey(c: CanvasName): string
  {
    match c
    case Left => "left"
    case Right => "right"
    case Main => "main"
  }

  /** The sections of a canvas, in order (`$sections`). */
  const Sections: seq<string> := ["header", "footer", "content"]

  /** A canvas: section name to content. */
  type Canvas = map<string, Value>

  /** The stored value of one section: what was supplied if it is set, `''` otherwise. */
  function SectionValue(supplied: Record, section: string): Value
  {
    if IsSet(supplied, section) then supplied[section] else Str("")
  }

  /** The canvas built from the first sections in `names`, one entry per name. */
  function FillSections(names: seq<string>, supplied: Record): (c: Canvas)
    ensures c.Keys == set n | n in names
    ensures forall k :: k in c ==> c[k] == SectionValue(supplied, k)
  {
    if names == [] then map[]
    else FillSections(names[..|names| - 1], supplied)[names[|names| - 1] := SectionValue(supplied, names[|names| - 1])]
  }

  /**
   * The canvas a push stores: exactly header, footer and content; a supplied
   * section that is set is kept, a missing or null one becomes `''`, and any
   * other supplied key is dropped.
   */
  function Normalised(supplied: Record): (c: Canvas)
    ensures c.Keys == {"header", "footer", "content"}
    ensures forall k :: k in c ==> c[k] == SectionValue(supplied, k)
  {
    var c := FillSections(Sections, supplied);
    assert forall n :: n in Sections <==> n in {"header", "footer", "content"};
    c
  }

  /** The three canvases as a value. */
  datatype Canvases = Canvases(left: Canvas, right: Canvas, main: Canvas) {

    function Get(c: CanvasName): Canvas
    {
      match c
      case Left => left
      case Right => right
      case Main => main
    }

    function Put(c: CanvasName, v: Canvas): (r: Canvases)
      ensures r.Get(c) == v
      ensures forall o :: o != c ==> r.Get(o) == Get(o)
    {
      match c
      case Left => this.(left := v)
      case Right => this.(right := v)
      case Main => this.(main := v)
    }
  }

  const EmptyCanvases := Canvases(map[], map[], map[])

  /** The canvases after pushing `supplied` to canvas `c`. */
  function Pushed(st: Canvases, c: CanvasName, supplied: Record): Canvases
  {
    st.Put(c, Normalised(supplied))
  }

  class SidebarCanvasEvent {
    const sections: seq<string> := Sections
    var left: Canvas
    var right: Canvas
    var main: Canvas

    /** All canvases start empty. */
    constructor ()
      ensures State() == EmptyCanvases
    {
      left, right, main := map[], map[], map[];
    }

    ghost function State(): Canvases
      reads this
    {
      Canvases(left, right, main)
    }

    /** Insert content into the left canvas. */
    method PushToLeftCanvas(supplied: Record)
      modifies this
      ensures State() == Pushed(old(State()), Left, supplied)
    {
      SetCanvasSection(Left, supplied);
    }

    /** Insert content into the right canvas. */
    method PushToRightCanvas(supplied: Record)
      modifies this
      ensures State() == Pushed(old(State()), Right, supplied)
    {
      SetCanvasSection(Right, supplied);
    }

    /**
     * Insert content into the main canvas. The header section is stored like
     * on the other canvases.
     */
    method PushToMainCanvas(supplied: Record)
      modifies this
      ensures State() == Pushed(old(State()), Main, supplied)
    {
      SetCanvasSection(Main, supplied);
    }

    /** Builds the canvas section by section and replaces `canvas` with it. */
    method SetCanvasSection(canvas: CanvasName, supplied: Record)
      modifies this
      ensures State() == Pushed(old(State()), canvas, supplied)
    {
      var canvasSections: Canvas := map[];
      for i := 0 to |sections|
        invariant canvasSections == FillSections(sections[..i], supplied)
      {
        assert sections[..i + 1][..i] == sections[..i];
        var section := sections[i];
        canvasSections := canvasSections[section := if IsSet(supplied, section) then supplied[section] else Str("")];
      }
      assert sections[..|sections|] == sections;
      match canvas
      case Left => left := canvasSections;
      case Right => right := canvasSections;
      case Main => main := canvasSections;
    }

    /**
     * With a canvas name, that canvas's sections; without one, all three
     * canvases under the keys left, right and main.
     */
    function GetCanvasContent(canvas: Option<CanvasName>): (r: Value)
      reads this
      ensures canvas.Some? ==> r == Dict(State().Get(canvas.value))
      ensures canvas.None? ==> r.Dict? && r.entries.Keys == {"left", "right", "main"}
      ensures canvas.None? ==> forall c :: r.entries[CanvasKey(c)] == Dict(State().Get(c))
    {
      if canvas.Some? then
        match canvas.value
        case Left => Dict(left)
        case Right => Dict(right)
        case Main => Dict(main)
      else
        Dict(map["left" := Dict(left), "right" := Dict(right), "main" := Dict(main)])
    }
  }

  // ----- Properties of a push -----

  /** After a push, the canvas holds exactly the three sections, each the supplied value or `''`. */
  lemma PushedKeys(st: Canvases, c: CanvasName, supplied: Record)
    ensures Pushed(st, c, supplied).Get(c).Keys == {"header", "footer", "content"}
    ensures forall k :: k in Pushed(st, c, supplied).Get(c) ==>
      Pushed(st, c, supplied).Get(c)[k] == (if IsSet(supplied, k) then supplied[k] else Str(""))
  {
  }

  /** A push replaces the canvas wholesale: what it held before makes no difference. */
  lemma PushReplaces(st1: Canvases, st2: Canvases, c: CanvasName, supplied: Record)
    ensures Pushed(st1, c, supplied).Get(c) == Pushed(st2, c, supplied).Get(c)
  {
  }

  /** A push leaves the other two canvases as they were. */
  lemma PushFrame(st: Canvases, c: CanvasName, other: CanvasName, supplied: Record)
    requires other != c
    ensures Pushed(st, c, supplied).Get(other) == st.Get(other)
  {
  }

  /** Pushing the same sections twice is the same as pushing them once. */
  lemma PushIdempotent(st: Canvases, c: CanvasName, supplied: Record)
    ensures Pushed(Pushed(st, c, supplied), c, supplied) == Pushed(st, c, supplied)
  {
  }

  /** Pushing a canvas's own content back to it changes nothing. */
  lemma RepushIsIdentity(st: Canvases, c: CanvasName, supplied: Record)
    ensures Pushed(Pushed(st, c, supplied), c, Pushed(st, c, supplied).Get(c)) == Pushed(st, c, supplied)
  {
    var once := Normalised(supplied);
    var twice := Normalised(once);
    assert twice.Keys == once.Keys;
    forall k | k in once
      ensures twice[k] == once[k]
    {
      assert IsSet(once, k);
    }
    assert twice == once;
  }

  /** Pushes to two different canvases can be made in either order. */
  lemma PushesCommute(st: Canvases, c1: CanvasName, s1: Record, c2: CanvasName, s2: Record)
    requires c1 != c2
    ensures Pushed(Pushed(st, c1, s1), c2, s2) == Pushed(Pushed(st, c2, s2), c1, s1)
  {
  }

  /** The main canvas keeps a supplied header, as the other canvases do. */
  lemma MainKeepsHeader(st: Canvases, supplied: Record)
    requires IsSet(supplied, "header")
    ensures "header" in Pushed(st, Main, supplied).Get(Main)
    ensures Pushed(st, Main, supplied).Get(Main)["header"] == supplied["header"]
  {
  }
}
