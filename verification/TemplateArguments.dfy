/** Reading the element type of a port collection out of a block id such as `Combine<float, 3>`. */
module TemplateArguments {
  import opened Common

  predicate IsBlank(c: char) {
    c in " \t\n\r"
  }

  // ----- searching -----

  /** The first position whose character does (or, with `wanted` false, does not) satisfy the test. */
  function First(text: string, test: char -> bool): (position: Option<nat>)
    ensures position.Some? ==> position.value < |text| && test(text[position.value])
    ensures position.Some? ==> forall i :: 0 <= i < position.value ==> !test(text[i])
    ensures position.None? ==> forall i :: 0 <= i < |text| ==> !test(text[i])
  {
    if text == "" then None
    else if test(text[0]) then Some(0)
    else match First(text[1..], test)
      case Some(i) => Some(i + 1)
      case None => None
  }

  function Last(text: string, test: char -> bool): (position: Option<nat>)
    ensures position.Some? ==> position.value < |text| && test(text[position.value])
    ensures position.Some? ==> forall i :: position.value < i < |text| ==> !test(text[i])
    ensures position.None? ==> forall i :: 0 <= i < |text| ==> !test(text[i])
  {
    if text == "" then None
    else if test(text[|text| - 1]) then Some(|text| - 1)
    else Last(text[..|text| - 1], test)
  }

  function Trim(text: string): string {
    match (First(text, c => !IsBlank(c)), Last(text, c => !IsBlank(c)))
    case (Some(first), Some(last)) => if first <= last then text[first..last + 1] else ""
    case _ => ""
  }

  predicate Trimmed(text: string) {
    text != "" && !IsBlank(text[0]) && !IsBlank(text[|text| - 1])
  }

  // ----- the scanner -----

  /** The nesting depth after a character; a stray closing bracket leaves it at zero. */
  function Next(depth: nat, c: char): nat {
    if c == '<' then depth + 1 else if c == '>' && depth > 0 then depth - 1 else depth
  }

  function Level(text: string, depth: nat): nat {
    if text == "" then depth else Level(text[1..], Next(depth, text[0]))
  }

  /** The text before the first comma outside all brackets. */
  function FirstArgument(args: string, depth: nat): string {
    if args == "" || (args[0] == ',' && depth == 0) then ""
    else [args[0]] + FirstArgument(args[1..], Next(depth, args[0]))
  }

  function ElementType(blockId: string): Option<string> {
    match (First(blockId, c => c == '<'), Last(blockId, c => c == '>'))
    case (Some(open), Some(close)) =>
      if close <= open + 1 then None
      else
        var element := Trim(FirstArgument(blockId[open + 1..close], 0));
        if element == "" then None else Some(element)
    case _ => None
  }

  lemma PassOne(all: string, index: nat, depth: nat)
    requires index < |all|
    ensures !(all[index] == ',' && depth == 0) ==>
      all[..index] + FirstArgument(all[index..], depth) ==
      all[..index + 1] + FirstArgument(all[index + 1..], Next(depth, all[index]))
  {
    assert all[index..][1..] == all[index + 1..] && all[..index] + [all[index]] == all[..index + 1];
  }

  method InferCollectionElementType(blockId: string) returns (element: Option<string>)
    ensures element == ElementType(blockId)
  {
    hide Trim;
    var open, close := First(blockId, c => c == '<'), Last(blockId, c => c == '>');
    if open.None? || close.None? || close.value <= open.value + 1 { return None; }
    var all := blockId[open.value + 1..close.value];
    var args, depth, index := all, 0, 0;
    assert all[..0] == "" && all[0..] == all && "" + FirstArgument(all, 0) == FirstArgument(all, 0);
    while index < |args|
      invariant 0 <= index <= |args| && args == all
      invariant FirstArgument(all, 0) == all[..index] + FirstArgument(all[index..], depth)
    {
      var ch := args[index];
      PassOne(all, index, depth);
      if ch == '<' {
        depth := depth + 1;
      } else if ch == '>' {
        if depth > 0 { depth := depth - 1; }
      } else if ch == ',' && depth == 0 {
        assert FirstArgument(all[index..], depth) == "" && all[..index] + "" == all[..index];
        args := args[..index];
        break;
      }
      index := index + 1;
    }
    assert args == FirstArgument(all, 0) by {
      if index == |all| { assert all[index..] == "" && all[..index] + "" == all; }
    }
    var text := Trim(args);
    return if text == "" then None else Some(text);
  }

  // ----- what the scanner reads -----

  /** A comma of the text stands outside all brackets, counting from the given depth. */
  predicate TopComma(text: string, depth: nat) {
    exists i :: 0 <= i < |text| && text[i] == ',' && Level(text[..i], depth) == 0
  }

  /** Opening brackets less closing ones. */
  function Balance(text: string): int {
    var left: int, right: int := multiset(text)['<'], multiset(text)['>'];
    left - right
  }

  /** The depth after a text is the balance of the whole, on top of the depth before it, or the balance of the end that has most. */
  lemma {:induction false} LevelMeans(text: string, depth: nat)
    ensures forall k :: 0 <= k <= |text| ==> Level(text, depth) >= Balance(text[k..])
    ensures Level(text, depth) >= depth + Balance(text)
    ensures Level(text, depth) == depth + Balance(text) || exists k :: 0 <= k <= |text| && Level(text, depth) == Balance(text[k..])
  {
    assert text[0..] == text && text[|text|..] == "";
    if text != "" {
      var rest, next := text[1..], Next(depth, text[0]);
      LevelMeans(rest, next);
      assert text == [text[0]] + rest;
      assert Balance(text) == Balance([text[0]]) + Balance(rest);
      forall k | 0 < k <= |text| ensures Level(text, depth) >= Balance(text[k..]) { assert text[k..] == rest[k - 1..]; }
      if k :| 0 <= k <= |rest| && Level(rest, next) == Balance(rest[k..]) { assert rest[k..] == text[k + 1..]; }
    }
  }

  lemma LevelStep(text: string, depth: nat, i: nat)
    requires 0 < i <= |text|
    ensures Level(text[..i], depth) == Level(text[1..][..i - 1], Next(depth, text[0]))
  {
    assert text[..i][1..] == text[1..][..i - 1];
  }

  lemma TopCommaStep(text: string, depth: nat)
    requires text != ""
    ensures TopComma(text, depth) <==> ((text[0] == ',' && depth == 0) || TopComma(text[1..], Next(depth, text[0])))
  {
    var rest, next := text[1..], Next(depth, text[0]);
    forall i | 0 < i < |text| ensures text[i] == rest[i - 1] && Level(text[..i], depth) == Level(rest[..i - 1], next) {
      LevelStep(text, depth, i);
    }
    assert text[..0] == "";
    if TopComma(rest, next) {
      var i :| 0 <= i < |rest| && rest[i] == ',' && Level(rest[..i], next) == 0;
      assert text[i + 1] == ',' && Level(text[..i + 1], depth) == 0;
    }
  }

  /** With no such comma the scanner passes over the text; otherwise it stops inside it. */
  lemma {:induction false} ScanPasses(text: string, more: string, depth: nat)
    ensures !TopComma(text, depth) ==>
      FirstArgument(text + more, depth) == text + FirstArgument(more, Level(text, depth))
    ensures TopComma(text, depth) ==> |FirstArgument(text + more, depth)| < |text|
  {
    if text == "" {
      assert text + more == more;
    } else {
      assert (text + more)[1..] == text[1..] + more;
      TopCommaStep(text, depth);
      ScanPasses(text[1..], more, Next(depth, text[0]));
      assert [text[0]] + text[1..] == text;
    }
  }

  // ----- what an element type is -----

  /** The id up to its first opening bracket, what stands before its last closing one, and the rest. */
  predicate Framed(blockId: string, name: string, args: string, tail: string) {
    blockId == name + "<" + args + ">" + tail && '<' !in name && '>' !in tail
  }

  /** The text has no comma outside its brackets and ends with the arguments, or at such a comma of theirs. */
  predicate IsFirstArgument(args: string, a: string) {
    && a <= args && !TopComma(a, 0)
    && (a == args || (args[|a|] == ',' && Level(a, 0) == 0))
  }

  predicate IsSpacing(c: char) {
    c == ' ' || c == '\t' || c == '\n' || c == '\r'
  }

  predicate AllSpacing(text: string) {
    forall i :: 0 <= i < |text| ==> IsSpacing(text[i])
  }

  /** Not empty, no spacing at either end, and nothing but spacing around it. */
  ghost predicate IsStripped(text: string, element: string) {
    && element != "" && !IsSpacing(element[0]) && !IsSpacing(element[|element| - 1])
    && exists before, after :: text == before + element + after && AllSpacing(before) && AllSpacing(after)
  }

  lemma BlanksMean()
    ensures forall c :: IsBlank(c) <==> IsSpacing(c)
  {
    forall c ensures IsBlank(c) <==> IsSpacing(c) {
      var blanks := " \t\n\r";
      assert blanks[0] == ' ' && blanks[1] == '\t' && blanks[2] == '\n' && blanks[3] == '\r';
    }
  }

  lemma StrippedIsTrimmed(text: string, element: string)
    requires IsStripped(text, element)
    ensures Trim(text) == element
  {
    BlanksMean();
    var before, after :| text == before + element + after && AllSpacing(before) && AllSpacing(after);
    hide First, Last, IsBlank, IsSpacing;
    var first, last := |before|, |before| + |element| - 1;
    assert text[first] == element[0] && text[last] == element[|element| - 1];
    assert forall i :: 0 <= i < first ==> text[i] == before[i];
    assert forall i :: last < i < |text| ==> text[i] == after[i - last - 1];
    assert text[first..last + 1] == element;
    FoundAt(text, first, last);
  }

  lemma FoundAt(text: string, first: nat, last: nat)
    requires first <= last < |text| && !IsBlank(text[first]) && !IsBlank(text[last])
    requires forall i :: 0 <= i < first ==> IsBlank(text[i])
    requires forall i :: last < i < |text| ==> IsBlank(text[i])
    ensures Trim(text) == text[first..last + 1]
  {
    hide First, Last, IsBlank;
    var found, foundLast := First(text, c => !IsBlank(c)), Last(text, c => !IsBlank(c));
    assert found.Some? && foundLast.Some?;
    assert found.value == first && foundLast.value == last;
  }

  lemma TrimmedIsStripped(text: string)
    requires Trim(text) != ""
    ensures IsStripped(text, Trim(text))
  {
    BlanksMean();
    hide First, Last, IsBlank, IsSpacing;
    var first, last := First(text, c => !IsBlank(c)).value, Last(text, c => !IsBlank(c)).value;
    var before, after := text[..first], text[last + 1..];
    assert text == before + text[first..last + 1] + after;
    assert AllSpacing(before) && AllSpacing(after);
  }

  lemma {:induction false} ScannedIsFirst(args: string, depth: nat)
    ensures var a := FirstArgument(args, depth);
      && a <= args && !TopComma(a, depth) && (a == args || (args[|a|] == ',' && Level(a, depth) == 0))
  {
    var a := FirstArgument(args, depth);
    if a == "" {
    } else {
      var rest := FirstArgument(args[1..], Next(depth, args[0]));
      ScannedIsFirst(args[1..], Next(depth, args[0]));
      assert a == [args[0]] + rest && a[1..] == rest;
      TopCommaStep(a, depth);
      assert args == [args[0]] + args[1..];
    }
  }

  lemma FirstIsScanned(args: string, a: string)
    requires IsFirstArgument(args, a)
    ensures FirstArgument(args, 0) == a
  {
    var more := args[|a|..];
    assert args == a + more;
    ScanPasses(a, more, 0);
    assert FirstArgument(more, Level(a, 0)) == "";
    assert a + "" == a;
  }

  lemma FrameIsFound(blockId: string, name: string, args: string, tail: string)
    requires Framed(blockId, name, args, tail)
    ensures ElementType(blockId) == var element := Trim(FirstArgument(args, 0)); if element == "" then None else Some(element)
  {
    hide Trim, FirstArgument;
    var open, close := |name|, |name| + 1 + |args|;
    assert blockId[open] == '<' && blockId[close] == '>';
    assert forall i :: 0 <= i < open ==> blockId[i] == name[i];
    assert forall i :: close < i < |blockId| ==> blockId[i] == tail[i - close - 1];
    assert First(blockId, c => c == '<') == Some(open) && Last(blockId, c => c == '>') == Some(close);
    assert blockId[open + 1..close] == args;
    if args == "" { assert Trim(FirstArgument("", 0)) == "" by { NothingToTrim(); } }
  }

  lemma NothingToTrim()
    ensures Trim(FirstArgument("", 0)) == ""
  {
  }

  lemma FrameExists(blockId: string)
    requires ElementType(blockId).Some?
    ensures exists name, args, tail :: Framed(blockId, name, args, tail)
  {
    hide Trim, FirstArgument;
    var open, close := First(blockId, c => c == '<').value, Last(blockId, c => c == '>').value;
    var name, args, tail := blockId[..open], blockId[open + 1..close], blockId[close + 1..];
    assert blockId == name + "<" + args + ">" + tail;
    assert Framed(blockId, name, args, tail);
  }

  /** The element type of an id: the first argument between its outermost brackets, without the blanks around it. */
  lemma ElementTypeMeans(blockId: string, element: string)
    ensures ElementType(blockId) == Some(element) <==>
      exists name, args, tail, a :: Framed(blockId, name, args, tail) && IsFirstArgument(args, a) && IsStripped(a, element)
  {
    hide ElementType, Trim, FirstArgument, IsStripped, TopComma, Level;
    forall name, args, tail, a | Framed(blockId, name, args, tail) && IsFirstArgument(args, a) && IsStripped(a, element)
      ensures ElementType(blockId) == Some(element)
    {
      FrameIsFound(blockId, name, args, tail);
      FirstIsScanned(args, a);
      StrippedIsTrimmed(a, element);
      assert element != "" by { StrippedIsSome(a, element); }
    }
    if ElementType(blockId) == Some(element) {
      FrameExists(blockId);
      var name, args, tail :| Framed(blockId, name, args, tail);
      FrameIsFound(blockId, name, args, tail);
      ScannedIsFirst(args, 0);
      TrimmedIsStripped(FirstArgument(args, 0));
      assert IsFirstArgument(args, FirstArgument(args, 0)) && IsStripped(FirstArgument(args, 0), element);
    }
  }

  lemma StrippedIsSome(text: string, element: string)
    requires IsStripped(text, element)
    ensures element != ""
  {
  }

  lemma TrimKeeps(text: string, more: string)
    requires Trimmed(text)
    ensures Trim(text) == text
    ensures more != "" && !IsBlank(more[0]) ==> |Trim(text + more)| > |text|
  {
    var all := text + more;
    assert all[0] == text[0];
    if more != "" && !IsBlank(more[0]) {
      assert all[|text|] == more[0];
    }
  }

  lemma TrimShortens(text: string)
    ensures |Trim(text)| <= |text|
  {
  }

  lemma BracketsAreFound(name: string, args: string)
    requires '<' !in name
    ensures ElementType(name + "<" + args + ">") ==
      var element := Trim(FirstArgument(args, 0));
      if element == "" then None else Some(element)
  {
    hide ElementType;
    var blockId := name + "<" + args + ">";
    assert blockId == blockId + "";
    FrameIsFound(blockId, name, args, "");
  }

  /** The only argument is read back exactly when it has no comma outside its brackets. */
  lemma OnlyArgumentIsReadIff(name: string, a: string)
    requires '<' !in name && Trimmed(a)
    ensures ElementType(name + "<" + a + ">") == Some(a) <==> !TopComma(a, 0)
  {
    BracketsAreFound(name, a);
    ScanPasses(a, "", 0);
    assert a + "" == a;
    TrimKeeps(a, "");
    TrimShortens(FirstArgument(a, 0));
  }

  /** The first of several is read back exactly when, besides, its brackets are closed at the end. */
  lemma FirstArgumentIsReadIff(name: string, a: string, rest: string)
    requires '<' !in name && Trimmed(a)
    ensures ElementType(name + "<" + a + "," + rest + ">") == Some(a) <==> !TopComma(a, 0) && Level(a, 0) == 0
  {
    hide Trim;
    var more := "," + rest;
    assert name + "<" + a + "," + rest + ">" == name + "<" + (a + more) + ">";
    BracketsAreFound(name, a + more);
    ScanPasses(a, more, 0);
    TrimShortens(FirstArgument(a + more, 0));
    var tail := FirstArgument(more, Level(a, 0));
    assert more[0] == ',';
    if !TopComma(a, 0) {
      if Level(a, 0) == 0 {
        assert a + "" == a;
      } else {
        assert tail[0] == ',';
      }
      TrimKeeps(a, tail);
    }
  }

  // ----- type expressions -----

  /** A type as a reader sees it: a name, possibly applied to argument types. */
  datatype TypeExpr = TypeExpr(name: string, args: seq<TypeExpr>)

  function Print(t: TypeExpr): string {
    if t.args == [] then t.name else t.name + "<" + PrintAll(t.args) + ">"
  }

  function PrintAll(args: seq<TypeExpr>): string {
    if args == [] then "" else if |args| == 1 then Print(args[0]) else Print(args[0]) + "," + PrintAll(args[1..])
  }

  /** Names have no brackets and no commas, and no blanks around them. */
  predicate Plain(name: string) {
    Trimmed(name) && forall i :: 0 <= i < |name| ==> name[i] !in "<>,"
  }

  predicate WellNamed(t: TypeExpr) {
    Plain(t.name) && forall i :: 0 <= i < |t.args| ==> WellNamed(t.args[i])
  }

  /** Scanning the text from this depth comes back to it and meets no comma at depth zero. */
  predicate Neutral(text: string, depth: nat) {
    Level(text, depth) == depth && !TopComma(text, depth)
  }

  lemma {:induction false} ScanOfConcatenation(a: string, b: string, depth: nat)
    ensures Level(a + b, depth) == Level(b, Level(a, depth))
    ensures TopComma(a + b, depth) <==> (TopComma(a, depth) || TopComma(b, Level(a, depth)))
  {
    if a == "" {
      assert a + b == b;
      assert !TopComma(a, depth);
    } else {
      hide TopComma;
      assert (a + b)[1..] == a[1..] + b && (a + b)[0] == a[0];
      TopCommaStep(a, depth);
      TopCommaStep(a + b, depth);
      ScanOfConcatenation(a[1..], b, Next(depth, a[0]));
    }
  }

  lemma {:induction false} PlainTextIsNeutral(text: string, depth: nat)
    requires forall i :: 0 <= i < |text| ==> text[i] !in "<>,"
    ensures Neutral(text, depth)
  {
    if text == "" {
    } else {
      PlainTextIsNeutral(text[1..], depth);
      TopCommaStep(text, depth);
    }
  }

  lemma OneCharacter(c: char, depth: nat)
    ensures Level([c], depth) == Next(depth, c) && (TopComma([c], depth) <==> c == ',' && depth == 0)
  {
    TopCommaStep([c], depth);
    assert [c][1..] == "";
  }

  lemma {:induction false} PrintedTypeIsNeutral(t: TypeExpr, depth: nat)
    requires WellNamed(t)
    ensures Neutral(Print(t), depth) && Trimmed(Print(t))
    decreases t, |t.args| + 1
  {
    hide TopComma, Level;
    PlainTextIsNeutral(t.name, depth);
    if t.args != [] {
      var inner := PrintAll(t.args);
      PrintedArgumentsAreNeutral(t, t.args, depth + 1);
      OneCharacter('<', depth);
      OneCharacter('>', depth + 1);
      ScanOfConcatenation(t.name, "<", depth);
      ScanOfConcatenation(t.name + "<", inner, depth);
      ScanOfConcatenation(t.name + "<" + inner, ">", depth);
    }
  }

  lemma {:induction false} PrintedArgumentsAreNeutral(t: TypeExpr, args: seq<TypeExpr>, depth: nat)
    requires forall i :: 0 <= i < |args| ==> args[i] in t.args && WellNamed(args[i])
    requires args != [] && depth > 0
    ensures Neutral(PrintAll(args), depth) && PrintAll(args) != ""
    decreases t, |args|
  {
    hide TopComma, Level;
    PrintedTypeIsNeutral(args[0], depth);
    if |args| > 1 {
      PrintedArgumentsAreNeutral(t, args[1..], depth);
      OneCharacter(',', depth);
      ScanOfConcatenation(Print(args[0]), ",", depth);
      ScanOfConcatenation(Print(args[0]) + ",", PrintAll(args[1..]), depth);
    }
  }

  lemma PrintOfApplication(t: TypeExpr)
    requires t.args != []
    ensures Print(t) == if |t.args| == 1 then t.name + "<" + Print(t.args[0]) + ">"
                        else t.name + "<" + Print(t.args[0]) + "," + PrintAll(t.args[1..]) + ">"
  {
    if |t.args| > 1 {
      var a, rest := Print(t.args[0]), PrintAll(t.args[1..]);
      assert t.name + "<" + (a + "," + rest) + ">" == t.name + "<" + a + "," + rest + ">";
    }
  }

  /** The element type of a printed type application is its first argument, however deep the nesting. */
  lemma FirstTypeArgumentIsRead(t: TypeExpr)
    requires WellNamed(t) && t.args != []
    ensures ElementType(Print(t)) == Some(Print(t.args[0]))
  {
    var a := Print(t.args[0]);
    PrintedTypeIsNeutral(t.args[0], 0);
    hide TopComma, Level, ElementType, Trimmed;
    assert '<' !in t.name;
    PrintOfApplication(t);
    if |t.args| == 1 {
      OnlyArgumentIsReadIff(t.name, a);
    } else {
      FirstArgumentIsReadIff(t.name, a, PrintAll(t.args[1..]));
    }
  }
}
