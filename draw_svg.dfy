/** Markup assembly shared by the shapes (src/draw_svg.rs): an element is
    a tag, a list of `name="value"` attributes in a fixed order, and the
    self-closing ` />`; `close_element` appends the optional style
    attribute and the ` />` to a buffer. */
module DrawSvg {
  import opened Text
  import opened Styling

  /** One ` name="value"` attribute. */
  function Attr(name: string, value: string): (s: string)
    ensures |s| == |name| + |value| + 4
  {
    " " + name + "=\"" + value + "\""
  }

  /** An attribute whose name and value hold no line feed holds none. */
  lemma AttrNoNewline(name: string, value: string)
    requires NoNewline(name) && NoNewline(value)
    ensures NoNewline(Attr(name, value))
  {
  }

  /** The attributes written one after another, in list order. */
  function AttrsText(attrs: seq<(string, string)>): string
  {
    if attrs == [] then ""
    else AttrsText(attrs[..|attrs| - 1]) + Attr(attrs[|attrs| - 1].0, attrs[|attrs| - 1].1)
  }

  /** A self-closing element: `<tag` with its attributes, then ` />`. */
  function Element(tag: string, attrs: seq<(string, string)>): (e: string)
    ensures |e| >= 3 && e[|e| - 3..] == " />"
  {
    "<" + tag + AttrsText(attrs) + " />"
  }

  /** The names of a list of attributes or slots, in order. */
  function Names<V>(pairs: seq<(string, V)>): seq<string> {
    seq(|pairs|, i requires 0 <= i < |pairs| => pairs[i].0)
  }

  /** The value of the first attribute called `name`, if there is one. */
  function Lookup(attrs: seq<(string, string)>, name: string): (r: Option<string>)
    ensures r.Some? <==> name in Names(attrs)
    ensures r.Some? ==> exists i :: 0 <= i < |attrs| && attrs[i] == (name, r.value)
  {
    if attrs == [] then None
    else if attrs[0].0 == name then
      assert attrs[0] == (name, attrs[0].1) && Names(attrs)[0] == name;
      Some(attrs[0].1)
    else
      var r := Lookup(attrs[1..], name);
      assert Names(attrs) == [attrs[0].0] + Names(attrs[1..]);
      if r.Some? then
        var i :| 0 <= i < |attrs[1..]| && attrs[1..][i] == (name, r.value);
        assert attrs[i + 1] == (name, r.value);
        r
      else r
  }

  /** Every name of `attrs` occurs in `order`, and the names follow the
      order of `order` without repetition. */
  predicate FollowsOrder(attrs: seq<(string, string)>, order: seq<string>) {
    (forall i :: 0 <= i < |attrs| ==> attrs[i].0 in order)
    && forall i, j :: 0 <= i < j < |attrs| ==> IndexOf(order, attrs[i].0) < IndexOf(order, attrs[j].0)
  }

  /** The position of `x` in `s`, |s| when absent. */
  function IndexOf(s: seq<string>, x: string): (k: nat)
    ensures k <= |s|
    ensures k < |s| <==> x in s
    ensures k < |s| ==> s[k] == x && forall i :: 0 <= i < k ==> s[i] != x
  {
    if s == [] then 0
    else if s[0] == x then 0
    else 1 + IndexOf(s[1..], x)
  }

  /** The attribute list grown by one, and its text grown by that attribute. */
  lemma AttrsTextSnoc(attrs: seq<(string, string)>, name: string, value: string)
    ensures AttrsText(attrs + [(name, value)]) == AttrsText(attrs) + Attr(name, value)
  {
    assert (attrs + [(name, value)])[..|attrs|] == attrs;
  }

  /** The attributes written one after another, in list order, for a list
      built up to the attributes before `tag`'s ` />`. */
  function Open(tag: string, slots: seq<(string, Option<string>)>): string {
    "<" + tag + AttrsText(Present(slots))
  }

  /** The attributes whose slot holds a value, in slot order: a slot is an
      attribute name with an optional value, and an unset one is skipped. */
  function Present(slots: seq<(string, Option<string>)>): (attrs: seq<(string, string)>)
    ensures |attrs| <= |slots|
  {
    if slots == [] then []
    else
      var last := slots[|slots| - 1];
      Present(slots[..|slots| - 1]) + (if last.1.Some? then [(last.0, last.1.value)] else [])
  }

  predicate Distinct(names: seq<string>) {
    forall i, j :: 0 <= i < j < |names| ==> names[i] != names[j]
  }

  /** Some slot of `slots` is named `a.0` and holds `a.1`. */
  predicate FromSlot(slots: seq<(string, Option<string>)>, a: (string, string)) {
    exists k :: 0 <= k < |slots| && slots[k].0 == a.0 && slots[k].1 == Some(a.1)
  }

  /** Every attribute written comes from a slot of that name holding that value. */
  lemma {:induction false} PresentFromSlots(slots: seq<(string, Option<string>)>)
    ensures forall i :: 0 <= i < |Present(slots)| ==> FromSlot(slots, Present(slots)[i])
  {
    if slots != [] {
      var n := |slots| - 1;
      var init := slots[..n];
      PresentFromSlots(init);
      var attrs := Present(slots);
      var head := Present(init);
      forall i | 0 <= i < |attrs|
        ensures FromSlot(slots, attrs[i])
      {
        if i < |head| {
          assert attrs[i] == head[i];
          var k :| 0 <= k < |init| && init[k].0 == head[i].0 && init[k].1 == Some(head[i].1);
          assert slots[k] == init[k];
        } else {
          assert slots[n].0 == attrs[i].0 && slots[n].1 == Some(attrs[i].1);
        }
      }
    }
  }

  lemma IndexOfPrefix(a: seq<string>, b: seq<string>, x: string)
    requires x in a
    ensures IndexOf(a + b, x) == IndexOf(a, x)
  {
    if a[0] != x {
      assert (a + b)[1..] == a[1..] + b;
    }
  }

  lemma IndexOfDistinct(names: seq<string>, k: nat)
    requires Distinct(names) && k < |names|
    ensures IndexOf(names, names[k]) == k
  {
  }

  /** With distinct slot names, the written attributes follow the slot order. */
  lemma {:induction false} PresentFollowsOrder(slots: seq<(string, Option<string>)>)
    requires Distinct(Names(slots))
    ensures FollowsOrder(Present(slots), Names(slots))
  {
    if slots != [] {
      var n := |slots| - 1;
      var init := slots[..n];
      var names := Names(slots);
      assert Names(init) == names[..n];
      PresentFollowsOrder(init);
      PresentFromSlots(init);
      var attrs := Present(slots);
      var head := Present(init);
      assert names == Names(init) + [slots[n].0];
      forall i | 0 <= i < |head|
        ensures IndexOf(names, head[i].0) == IndexOf(Names(init), head[i].0) < n
      {
        IndexOfPrefix(Names(init), [slots[n].0], head[i].0);
      }
      IndexOfDistinct(names, n);
      forall i | 0 <= i < |attrs|
        ensures attrs[i].0 in names
      {
        if i < |head| {
          assert attrs[i] == head[i];
        }
      }
      forall i, j | 0 <= i < j < |attrs|
        ensures IndexOf(names, attrs[i].0) < IndexOf(names, attrs[j].0)
      {
        assert attrs[i] == head[i];
        if j < |head| {
          assert attrs[j] == head[j];
        } else {
          assert attrs[j].0 == slots[n].0;
        }
      }
    }
  }

  lemma LookupAppend(a: seq<(string, string)>, b: seq<(string, string)>, name: string)
    ensures Lookup(a + b, name) == if Lookup(a, name).Some? then Lookup(a, name) else Lookup(b, name)
  {
    if a != [] {
      assert (a + b)[1..] == a[1..] + b;
    } else {
      assert a + b == b;
    }
  }

  /** A name no slot carries is never written. */
  lemma AbsentName(slots: seq<(string, Option<string>)>, name: string)
    requires name !in Names(slots)
    ensures Lookup(Present(slots), name) == None
  {
    PresentFromSlots(slots);
    var attrs := Present(slots);
    forall i | 0 <= i < |attrs|
      ensures Names(attrs)[i] != name
    {
      var k :| 0 <= k < |slots| && slots[k].0 == attrs[i].0 && slots[k].1 == Some(attrs[i].1);
      assert Names(slots)[k] == attrs[i].0;
    }
  }

  /** With distinct slot names, looking an attribute up finds exactly the
      value its slot holds: it is written if and only if its slot is set. */
  lemma {:induction false} LookupPresent(slots: seq<(string, Option<string>)>, k: nat)
    requires Distinct(Names(slots)) && k < |slots|
    ensures Lookup(Present(slots), slots[k].0) == slots[k].1
  {
    var n := |slots| - 1;
    var init := slots[..n];
    var name := slots[k].0;
    var last := if slots[n].1.Some? then [(slots[n].0, slots[n].1.value)] else [];
    assert Present(slots) == Present(init) + last;
    LookupAppend(Present(init), last, name);
    assert Names(init) == Names(slots)[..n];
    if k < n {
      assert init[k] == slots[k];
      LookupPresent(init, k);
      assert slots[n].0 != name by {
        assert Names(slots)[k] != Names(slots)[n];
      }
    } else {
      assert name !in Names(init) by {
        assert forall j :: 0 <= j < n ==> Names(init)[j] == Names(slots)[j] != Names(slots)[n];
      }
      AbsentName(init, name);
    }
  }

  /** Opening a tag with one more set slot writes one more attribute. */
  lemma OpenSnoc(tag: string, slots: seq<(string, Option<string>)>, name: string, value: string)
    ensures Open(tag, slots + [(name, Some(value))]) == Open(tag, slots) + Attr(name, value)
  {
    assert (slots + [(name, Some(value))])[..|slots|] == slots;
    AttrsTextSnoc(Present(slots), name, value);
  }

  /** Closing an element opened with slots and then a style slot writes what
      `close_element` appends for that style. */
  lemma CloseWithStyle(tag: string, slots: seq<(string, Option<string>)>, v: StyleValue)
    ensures Element(tag, Present(slots + [("style", StyleSlot(v))])) == Open(tag, slots) + Closing(v)
  {
    var all := slots + [("style", StyleSlot(v))];
    assert all[..|slots|] == slots;
    ClosingByText(v);
    var t := v.Text();
    var a := AttrsText(Present(slots));
    if t == "" {
      assert Present(all) == Present(slots);
      assert Closing(v) == " />";
    } else {
      AttrsTextSnoc(Present(slots), "style", t);
      assert Closing(v) == Attr("style", t) + " />";
      assert "<" + tag + (a + Attr("style", t)) + " />" == ("<" + tag + a) + (Attr("style", t) + " />");
    }
  }

  /** Slots written one list after another write their attributes one list
      after another. */
  lemma {:induction false} PresentAppend(a: seq<(string, Option<string>)>, b: seq<(string, Option<string>)>)
    ensures Present(a + b) == Present(a) + Present(b)
  {
    if b == [] {
      assert a + b == a;
    } else {
      var n := |b| - 1;
      assert (a + b)[..|a + b| - 1] == a + b[..n];
      PresentAppend(a, b[..n]);
    }
  }

  predicate AllUnset(slots: seq<(string, Option<string>)>) {
    forall k :: 0 <= k < |slots| ==> slots[k].1.None?
  }

  /** Unset slots write nothing. */
  lemma {:induction false} UnsetWritesNothing(slots: seq<(string, Option<string>)>)
    requires AllUnset(slots)
    ensures Present(slots) == []
  {
    if slots != [] {
      UnsetWritesNothing(slots[..|slots| - 1]);
    }
  }

  /** `push_str` of one optional attribute onto a tag being opened: nothing
      when the slot is unset, ` name="value"` when it is set. */
  method PushSlot(ghost tag: string, ghost slots: seq<(string, Option<string>)>, buffer: string,
                  name: string, value: Option<string>) returns (t: string)
    requires buffer == Open(tag, slots)
    ensures t == Open(tag, slots + [(name, value)])
  {
    var slots' := slots + [(name, value)];
    assert slots'[..|slots|] == slots;
    t := buffer;
    if value.Some? {
      t := t + Attr(name, value.value);
      AttrsTextSnoc(Present(slots), name, value.value);
    } else {
      assert Present(slots') == Present(slots);
    }
  }

  /** The slot of the style attribute: set when the style text is non-empty,
      as the shapes test after `style.to_string()`. */
  function StyleSlot(v: StyleValue): Option<string> {
    if v.Text() == "" then None else Some(v.Text())
  }

  /** The style attribute, written when the style text is non-empty, as the
      shapes do after `style.to_string()`. */
  function StyleAttr(styleText: string): string {
    if styleText == "" then "" else Attr("style", styleText)
  }

  /** What `close_element` appends: the style attribute unless the style is
      empty, then ` />`. */
  function Closing(v: StyleValue): string {
    (if v.IsEmpty() then "" else Attr("style", v.Text())) + " />"
  }

  /** Testing the style for emptiness and testing its text for emptiness
      agree, so `close_element` writes what the shapes write. */
  lemma ClosingByText(v: StyleValue)
    ensures Closing(v) == StyleAttr(v.Text()) + " />"
  {
    TextEmptyIff(v);
  }

  /** `close_element` with an empty style appends exactly ` />`; with a
      non-empty one it appends ` style="..."` holding the style text, then
      ` />`. */
  lemma ClosingCases(v: StyleValue)
    ensures v.IsEmpty() ==> Closing(v) == " />"
    ensures !v.IsEmpty() ==> Closing(v) == " style=\"" + v.Text() + "\"" + " />"
  {
    if v.IsEmpty() {
      assert "" + " />" == " />";
    }
  }

  /** Whatever the style, `close_element` appends text ending in ` />`. */
  lemma ClosingEnds(v: StyleValue)
    ensures |Closing(v)| >= 3 && Closing(v)[|Closing(v)| - 3..] == " />"
  {
    var a := if v.IsEmpty() then "" else Attr("style", v.Text());
    assert (a + " />")[|a|..] == " />";
  }

  /** `close_element` appends to the buffer: what was there stays a prefix,
      and the buffer ends with ` />`. */
  method CloseElement(style: Style, buffer: string) returns (result: string)
    ensures result == buffer + Closing(style.Value())
  {
    result := buffer;
    if !style.Value().IsEmpty() {
      var text := style.ToString();
      result := result + Attr("style", text);
    }
    result := result + " />";
  }

  lemma CloseElementAppends(buffer: string, v: StyleValue)
    ensures |buffer + Closing(v)| >= |buffer| + 3
    ensures (buffer + Closing(v))[..|buffer|] == buffer
    ensures (buffer + Closing(v))[|buffer + Closing(v)| - 3..] == " />"
  {
    ClosingEnds(v);
    var c := Closing(v);
    assert (buffer + c)[|buffer + c| - 3..] == c[|c| - 3..];
  }

  /** The example of src/draw_svg.rs: a stroke and a stroke width give
      ` style="stroke:#000000;stroke-width:1;" />`. */
  lemma StrokeClosing()
    ensures Closing(EmptyStyle.After(SetStrokeWidth(1.0)).After(SetStroke("#000000")))
      == " style=\"" + ("stroke:#000000;" + "stroke-width:1;") + "\"" + " />"
  {
    var v := EmptyStyle.After(SetStrokeWidth(1.0)).After(SetStroke("#000000"));
    StrokeExample();
    ClosingCases(v);
  }
}
