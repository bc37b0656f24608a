/**
 * What a streaming XML parser hands to its listeners: open-tag events carrying an
 * element's name and attributes, close-tag events carrying a name, and at the end
 * either a normal end or an error.
 */
module Sax {
  import opened Wrappers
  import opened JsValues
  import opened Lists

  datatype Element = Element(name: string, attributes: map<string, string>)

  datatype Event = OpenTag(element: Element) | CloseTag(name: string)

  /** How the stream finished: an `end` event, or an `error` event with its message. */
  datatype Outcome = Ended | Failed(message: string)

  /**
   * Why a stage returned an error: an error value was reported (by the stream's
   * `error` event, or by file handling outside this model), or a listener threw
   * while handling the event at this position.
   */
  datatype PassError = Reported(message: string) | HandlerThrew(position: nat)

  /** One XML file as the listeners see it. */
  datatype Document = Document(events: seq<Event>, outcome: Outcome)

  /** `element.attributes[key]`; undefined when the attribute is absent. */
  function Attribute(e: Element, key: string): (r: Attr)
    ensures r.Some? <==> key in e.attributes
  {
    if key in e.attributes then Some(e.attributes[key]) else None
  }

  /** How many events open an element with this name. */
  function Opens(es: seq<Event>, name: string): nat
  {
    if es == [] then 0
    else Opens(es[..|es| - 1], name) + (if Last(es).OpenTag? && Last(es).element.name == name then 1 else 0)
  }

  /** How many events close an element with this name. */
  function Closes(es: seq<Event>, name: string): nat
  {
    if es == [] then 0
    else Closes(es[..|es| - 1], name) + (if Last(es) == CloseTag(name) then 1 else 0)
  }

  /** Opens minus closes of a name over a stretch of events: how deep inside such elements it ends. */
  function Nesting(es: seq<Event>, name: string): int
  {
    Opens(es, name) - Closes(es, name)
  }

  /** Counting over two stretches adds up. */
  lemma {:induction false} NestingConcat(a: seq<Event>, b: seq<Event>, name: string)
    ensures Nesting(a + b, name) == Nesting(a, name) + Nesting(b, name)
    decreases |b|
  {
    if b == [] {
      assert a + b == a;
    } else {
      var b' := b[..|b| - 1];
      assert (a + b)[..|a + b| - 1] == a + b';
      assert Last(a + b) == Last(b);
      NestingConcat(a, b', name);
    }
  }

  /** A well-nested element: its own open, well-nested children, its own close. */
  lemma ElementNesting(e: Element, inner: seq<Event>, name: string)
    ensures Nesting([OpenTag(e)] + inner + [CloseTag(e.name)], name) == Nesting(inner, name)
  {
    NestingConcat([OpenTag(e)] + inner, [CloseTag(e.name)], name);
    NestingConcat([OpenTag(e)], inner, name);
    assert [OpenTag(e)][..0] == [];
    assert [CloseTag(e.name)][..0] == [];
  }

  /** Opens an element with this name. */
  predicate OpensElement(e: Event, name: string) {
    e.OpenTag? && e.element.name == name
  }

  /** Reading one more event moves the nesting by that event alone. */
  lemma NestingOneMore(es: seq<Event>, i: nat, name: string)
    requires i < |es|
    ensures Nesting(es[..i + 1], name) == Nesting(es[..i], name)
      + (if OpensElement(es[i], name) then 1 else 0) - (if es[i] == CloseTag(name) then 1 else 0)
  {
    assert es[..i + 1][..i] == es[..i];
    assert Last(es[..i + 1]) == es[i];
  }

  /**
   * An attribute of the last element with this name opened in a stretch of
   * events, or `start` when there is none: what a listener variable assigned on
   * each such element holds afterwards.
   */
  function LastAttribute(es: seq<Event>, name: string, key: string, start: Attr): Attr
  {
    if es == [] then start
    else if OpensElement(Last(es), name) then Attribute(Last(es).element, key)
    else LastAttribute(es[..|es| - 1], name, key, start)
  }

  /** Reading two stretches in a row: the second starts from the value the first left. */
  lemma {:induction false} LastAttributeConcat(a: seq<Event>, b: seq<Event>, name: string, key: string, start: Attr)
    ensures LastAttribute(a + b, name, key, start) == LastAttribute(b, name, key, LastAttribute(a, name, key, start))
    decreases |b|
  {
    if b == [] {
      assert a + b == a;
    } else {
      var b' := b[..|b| - 1];
      assert (a + b)[..|a + b| - 1] == a + b';
      assert Last(a + b) == Last(b);
      LastAttributeConcat(a, b', name, key, start);
    }
  }

  /** Reading on past a stretch that opens no such element keeps the value. */
  lemma {:induction false} LastAttributeSkips(a: seq<Event>, b: seq<Event>, name: string, key: string, start: Attr)
    requires forall i :: 0 <= i < |b| ==> !OpensElement(b[i], name)
    ensures LastAttribute(a + b, name, key, start) == LastAttribute(a, name, key, start)
    decreases |b|
  {
    if b == [] {
      assert a + b == a;
    } else {
      var b' := b[..|b| - 1];
      assert (a + b)[..|a + b| - 1] == a + b';
      assert Last(a + b) == b[|b| - 1];
      LastAttributeSkips(a, b', name, key, start);
    }
  }
}
