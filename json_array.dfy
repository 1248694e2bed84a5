/** The JSON-array file that append_json maintains across calls and
    restarts, described by the objects it holds and whether it is closed. */
module JsonArray {
  import opened Outcomes
  import opened Text
  import opened Files

  /** Open: "[" then every object followed by a separator (a run that has
      not written its last object yet, or was interrupted).
      Closed: a complete JSON array of the objects. */
  datatype ArrayFile = Open(objs: seq<string>) | Closed(objs: seq<string>)

  /** The separator append_json writes between objects. */
  const Separator: string := ",\n"

  function Render(a: ArrayFile): string
  {
    match a
    case Open(objs) => "[" + Terminated(objs, Separator)
    case Closed(objs) => "[" + Join(objs, Separator) + "]"
  }

  /** A state append_json can continue from correctly: anything but the
      closed empty array "[]". */
  predicate Resumable(a: ArrayFile)
  {
    a.Open? || |a.objs| > 0
  }

  /** The state after one more object, closed when it is the last. */
  function Push(a: ArrayFile, obj: string, isLast: bool): (r: ArrayFile)
    ensures r.objs == a.objs + [obj] && (r.Closed? <==> isLast) && Resumable(r)
  {
    if isLast then Closed(a.objs + [obj]) else Open(a.objs + [obj])
  }

  /** An open file never ends in ']', so append_json keeps it whole. */
  lemma OpenLastChar(objs: seq<string>)
    ensures |Render(Open(objs))| > 0
    ensures Render(Open(objs))[|Render(Open(objs))| - 1] != ']'
  {
    if |objs| > 0 {
      TerminatedLast(objs, Separator);
      var body := Terminated(objs, Separator);
      assert ("[" + body)[|body|] == body[|body| - 1];
    }
  }

  /** append_json takes a resumable state to the next one: a closed array
      loses exactly its ']' and gains a separator, an open one is extended. */
  lemma AppendJsonOnState(a: ArrayFile, obj: string, isLast: bool)
    requires Resumable(a)
    ensures AppendJsonContent(Some(Render(a)), obj, isLast) == Ok(Render(Push(a, obj, isLast)))
  {
    AppendKeepsObjects(a, obj, isLast);
    PushRender(a, obj, isLast);
  }

  /** What append_json keeps of a resumable file is "[" and every object
      followed by a separator. */
  lemma AppendKeepsObjects(a: ArrayFile, obj: string, isLast: bool)
    requires Resumable(a)
    ensures AppendJsonContent(Some(Render(a)), obj, isLast)
      == Ok("[" + Terminated(a.objs, Separator) + obj + Terminator(isLast))
  {
    if a.Open? {
      OpenLastChar(a.objs);
    } else {
      var text := Render(a);
      assert text[|text| - 1] == ']';
      assert text[..|text| - 1] == "[" + Join(a.objs, Separator);
      JoinThenSeparator(a.objs, Separator);
      assert text[..|text| - 1] + ",\n" == "[" + Terminated(a.objs, Separator);
    }
  }

  lemma PushRender(a: ArrayFile, obj: string, isLast: bool)
    ensures Render(Push(a, obj, isLast)) == "[" + Terminated(a.objs, Separator) + obj + Terminator(isLast)
  {
    var objs := a.objs;
    var kept := Terminated(objs, Separator);
    if isLast {
      if |objs| == 0 {
        assert Render(Push(a, obj, isLast)) == "[" + obj + "]";
        assert "[" + kept == "[";
      } else {
        JoinSnoc(objs, obj, Separator);
        ConcatAssoc("[", kept, obj);
      }
    } else {
      TerminatedSnoc(objs, obj, Separator);
      ConcatAssoc("[", kept + obj, Separator);
      ConcatAssoc("[", kept, obj);
    }
  }

  /** append_json on an absent file behaves as on the open empty array. */
  lemma AppendJsonOnAbsent(obj: string, isLast: bool)
    ensures AppendJsonContent(None, obj, isLast) == Ok(Render(Push(Open([]), obj, isLast)))
  {
    assert Render(Open([])) == "[";
    AppendJsonOnState(Open([]), obj, isLast);
  }

  /** The file text after a sequence of append_json calls, whichever
      processes made them: nothing but the file is carried between calls. */
  function AppendSeq(existing: Option<string>, items: seq<(string, bool)>): Outcome<Option<string>>
    decreases items
  {
    if |items| == 0 then Ok(existing)
    else match AppendJsonContent(existing, items[0].0, items[0].1)
      case Raise(e) => Raise(e)
      case Ok(text) => AppendSeq(Some(text), items[1..])
  }

  function PushAll(a: ArrayFile, items: seq<(string, bool)>): ArrayFile
    decreases items
  {
    if |items| == 0 then a else PushAll(Push(a, items[0].0, items[0].1), items[1..])
  }

  function Objects(items: seq<(string, bool)>): seq<string>
  {
    if |items| == 0 then [] else [items[0].0] + Objects(items[1..])
  }

  /** After several appends the file holds the old objects and then the new
      ones, in order, closed exactly when the last call said so. */
  lemma {:induction false} PushAllShape(a: ArrayFile, items: seq<(string, bool)>)
    ensures PushAll(a, items).objs == a.objs + Objects(items)
    ensures PushAll(a, items).Closed? <==> (if |items| == 0 then a.Closed? else items[|items| - 1].1)
    decreases items
  {
    if |items| > 0 {
      PushAllShape(Push(a, items[0].0, items[0].1), items[1..]);
      assert a.objs + [items[0].0] + Objects(items[1..]) == a.objs + Objects(items);
    }
  }

  lemma {:induction false} AppendSeqFromState(a: ArrayFile, items: seq<(string, bool)>)
    requires Resumable(a)
    ensures AppendSeq(Some(Render(a)), items) == Ok(Some(Render(PushAll(a, items))))
    decreases items
  {
    if |items| > 0 {
      AppendJsonOnState(a, items[0].0, items[0].1);
      AppendSeqFromState(Push(a, items[0].0, items[0].1), items[1..]);
    }
  }

  /** Appending N objects, from an absent file or one left by earlier runs
      (open, or closed with at least one object), with only the final call
      saying is_last, leaves a complete array of the old objects followed
      by the N new ones: how many processes shared the work does not matter. */
  lemma ValidArrayAfterAppends(start: Option<ArrayFile>, items: seq<(string, bool)>)
    requires start.Some? ==> Resumable(start.value)
    requires |items| > 0 && items[|items| - 1].1
    ensures var before := if start.Some? then start.value.objs else [];
      AppendSeq(if start.Some? then Some(Render(start.value)) else None, items)
        == Ok(Some("[" + Join(before + Objects(items), Separator) + "]"))
  {
    var a := if start.Some? then start.value else Open([]);
    PushAllShape(a, items);
    if start.Some? {
      AppendSeqFromState(a, items);
    } else {
      AppendJsonOnAbsent(items[0].0, items[0].1);
      var a1 := Push(a, items[0].0, items[0].1);
      AppendSeqFromState(a1, items[1..]);
      assert PushAll(a, items) == PushAll(a1, items[1..]);
    }
  }

  /** A file left as "[]" (a run in which nothing was appended) is not
      resumable: the next append leaves a separator right after '['. */
  lemma EmptyClosedArrayReopened(obj: string)
    ensures AppendJsonContent(Some("[]"), obj, true) == Ok("[" + ",\n" + obj + "]")
  {
    assert "[]"[..1] == "[";
  }
}
