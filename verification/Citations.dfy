/** How a citation names its target: `_citation_target` of `okengine-mcp/converge.py`. */
module Citations {
  import opened Converge
  import opened Text
  import opened Values

  const MD := ".md"

  /** The target itself: no label, no section, no suffix, no white space around it. */
  predicate Plain(t: string) {
    && t != [] && !Space(t[0]) && !Space(t[|t| - 1]) && '|' !in t && '#' !in t
    && !(|t| >= 3 && t[|t| - 3..] == MD)
  }

  /** What may follow a target: nothing, a label or a section. */
  predicate Tail(tail: string) {
    tail == "" || tail[0] == '|' || tail[0] == '#'
  }

  lemma {:induction false} BeforeCut(head: string, tail: string, c: char)
    requires c !in head
    ensures Before(head + tail, c) == head + Before(tail, c)
  {
    if head == [] {
      assert head + tail == tail;
    } else {
      assert (head + tail)[1..] == head[1..] + tail;
      BeforeCut(head[1..], tail, c);
    }
  }

  lemma CutBoth(head: string, tail: string)
    requires '|' !in head && '#' !in head && Tail(tail)
    ensures Before(Before(head + tail, '|'), '#') == head
  {
    BeforeCut(head, tail, '|');
    var rest := Before(tail, '|');
    assert rest == [] || rest[0] == '#';
    BeforeCut(head, rest, '#');
    assert Before(rest, '#') == [];
  }

  lemma InnerTarget(t: string, ext: string, tail: string)
    requires Plain(t) && (ext == "" || ext == MD) && Tail(tail)
    ensures WithoutSuffix(Strip(Before(Before(t + ext + tail, '|'), '#'))) == t
  {
    var head := t + ext;
    assert '|' !in head && '#' !in head;
    CutBoth(head, tail);
    assert head[0] == t[0] && !Space(head[|head| - 1]);
    StripOf([], head, []);
    assert [] + head + [] == head;
    if ext == MD {
      assert head[|head| - 3..] == MD && head[..|head| - 3] == t;
    } else {
      assert head == t;
    }
  }

  /** `[[t]]`, `t`, each with the suffix `.md`, a label or a section, and any white space around it, all
      cite `t`. */
  lemma CitesTarget(render: Render, item: Value, t: string, ext: string, tail: string, before: string, after: string,
                    linked: bool)
    requires Plain(t) && (ext == "" || ext == MD) && Tail(tail)
    requires forall i :: 0 <= i < |before| ==> Space(before[i])
    requires forall i :: 0 <= i < |after| ==> Space(after[i])
    requires var inner := t + ext + tail;
             if linked then render(item) == before + ("[[" + inner + "]]") + after
             else render(item) == before + inner + after && !Space(inner[|inner| - 1]) && !Bracketed(inner)
    ensures Target(render, item) == t
  {
    var inner := t + ext + tail;
    InnerTarget(t, ext, tail);
    assert inner[0] == t[0];
    if linked {
      var whole := "[[" + inner + "]]";
      assert whole[0] == '[' && whole[|whole| - 1] == ']';
      StripOf(before, whole, after);
      assert whole[..2] == "[[" && whole[|whole| - 2..] == "]]" && whole[2..|whole| - 2] == inner;
    } else {
      StripOf(before, inner, after);
    }
    hide Strip, Before, WithoutSuffix, Plain, Space;
  }
}
