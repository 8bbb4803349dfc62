/** The named-block reader the system parser calls for each `build` property: it consumes
    a header line `<keyword> <name>` with its opening brace, then content lines up to a
    line that is exactly "}". */
module Blocks {
  import opened Wrappers
  import opened Text

  /** A block read from the front of a line list: its name, its content lines, and the
      lines that follow the closing brace. */
  datatype Block = Block(name: string, content: seq<string>, rest: seq<string>)

  /** A character of [\w-]. */
  predicate IsNameChar(c: char) { IsWordChar(c) || c == '-' }

  /** A block name matches ^[\w-]+$ as a whole. */
  predicate IsBlockName(s: string) {
    s != [] && forall i :: 0 <= i < |s| ==> IsNameChar(s[i])
  }

  lemma BlockNameIsWord(s: string)
    requires IsBlockName(s)
    ensures IsWord(s)
  {
  }

  /** The position of the first line equal to x, if there is one. */
  function IndexOf(ls: seq<string>, x: string): (r: Option<nat>)
    ensures r.None? <==> x !in ls
    ensures r.Some? ==> r.value < |ls| && ls[r.value] == x && x !in ls[..r.value]
  {
    if ls == [] then None
    else if ls[0] == x then Some(0)
    else
      match IndexOf(ls[1..], x)
      case None => None
      case Some(i) =>
        assert ls[..i + 1] == [ls[0]] + ls[1..][..i];
        Some(i + 1)
  }

  /** Content lines run up to the first line that is exactly "}", which is consumed. */
  function BlockBody(name: string, ls: seq<string>): (r: Result<Block>)
    ensures r.Ok? <==> "}" in ls
    ensures r.Ok? ==> r.value.name == name && ls == r.value.content + ["}"] + r.value.rest
                      && "}" !in r.value.content
    ensures r.Ok? ==> |r.value.rest| < |ls| && r.value.rest == ls[|ls| - |r.value.rest|..]
  {
    match IndexOf(ls, "}")
    case None => Err("Missing closing '}'")
    case Some(i) =>
      assert ls == ls[..i] + ["}"] + ls[i + 1..];
      Ok(Block(name, ls[..i], ls[i + 1..]))
  }

  /** Reads one named block from the front of lines. The header's first token is the
      keyword the caller has already dispatched on; the second is the name; the brace is
      the third token, or the whole next line, or the third token is "{}" for an empty
      block closed on the header line. */
  function ParseNamedBlock(lines: seq<string>): (r: Result<Block>)
    ensures r.Ok? ==> |r.value.rest| < |lines| && r.value.rest == lines[|lines| - |r.value.rest|..]
    ensures r.Ok? ==> IsBlockName(r.value.name) && "}" !in r.value.content
    ensures r.Ok? ==> |Tokens(lines[0])| >= 2 && r.value.name == Tokens(lines[0])[1]
  {
    if lines == [] then Err("Unexpected end of block")
    else
      var t := Tokens(lines[0]);
      if |t| < 2 then Err("Missing block name")
      else if !IsBlockName(t[1]) then Err("Invalid block name '" + t[1] + "'")
      else if |t| == 2 then
        if |lines| < 2 || lines[1] != "{" then Err("Expected '{' after block name")
        else BlockBody(t[1], lines[2..])
      else if |t| == 3 && t[2] == "{}" then Ok(Block(t[1], [], lines[1..]))
      else if |t| == 3 && t[2] == "{" then BlockBody(t[1], lines[1..])
      else Err("Invalid block declaration '" + lines[0] + "'")
  }

  /** What each accepted header shape leads to, stated on the header's tokens. */
  lemma HeaderShapes(lines: seq<string>, kw: string, name: string)
    requires lines != [] && IsBlockName(name)
    ensures Tokens(lines[0]) == [kw, name, "{"] ==> ParseNamedBlock(lines) == BlockBody(name, lines[1..])
    ensures Tokens(lines[0]) == [kw, name, "{}"] ==> ParseNamedBlock(lines) == Ok(Block(name, [], lines[1..]))
    ensures Tokens(lines[0]) == [kw, name] && |lines| >= 2 && lines[1] == "{"
            ==> ParseNamedBlock(lines) == BlockBody(name, lines[2..])
  {
  }

  /** A block written as `<keyword> <name> {`, its content lines and a lone "}" is read back
      as that name and content, leaving the lines after it. */
  lemma ReadWrittenBlock(kw: string, name: string, content: seq<string>, rest: seq<string>)
    requires IsWord(kw) && IsBlockName(name)
    requires "}" !in content
    ensures ParseNamedBlock([kw + " " + name + " {"] + content + ["}"] + rest)
            == Ok(Block(name, content, rest))
  {
    var body := content + ["}"] + rest;
    var lines := [kw + " " + name + " {"] + body;
    assert lines == [kw + " " + name + " {"] + content + ["}"] + rest;
    HeaderTokens(kw, name);
    assert lines[1..] == body;
    BraceHeaderBlock(lines, kw, name, content, rest);
  }

  lemma BraceHeaderBlock(lines: seq<string>, kw: string, name: string,
                         content: seq<string>, rest: seq<string>)
    requires lines != [] && IsBlockName(name) && "}" !in content
    requires Tokens(lines[0]) == [kw, name, "{"]
    requires lines[1..] == content + ["}"] + rest
    ensures ParseNamedBlock(lines) == Ok(Block(name, content, rest))
  {
    HeaderShapes(lines, kw, name);
    ClosedBody(name, content, rest);
  }

  /** The brace may stand alone on the line after `<keyword> <name>`. */
  lemma ReadBraceOnNextLine(kw: string, name: string, content: seq<string>, rest: seq<string>)
    requires IsWord(kw) && IsBlockName(name)
    requires "}" !in content
    ensures ParseNamedBlock([kw + " " + name, "{"] + content + ["}"] + rest)
            == Ok(Block(name, content, rest))
  {
    var body := content + ["}"] + rest;
    var lines := [kw + " " + name, "{"] + body;
    assert lines == [kw + " " + name, "{"] + content + ["}"] + rest;
    BlockNameIsWord(name);
    TokensOfTwo(kw, name);
    assert lines[0] == kw + " " + name && lines[1] == "{";
    assert lines[2..] == body;
    HeaderShapes(lines, kw, name);
    ClosedBody(name, content, rest);
  }

  /** `<keyword> <name> {}` is an empty block closed on its own header line. */
  lemma ReadInlineEmpty(kw: string, name: string, rest: seq<string>)
    requires IsWord(kw) && IsBlockName(name)
    ensures ParseNamedBlock([kw + " " + name + " {}"] + rest) == Ok(Block(name, [], rest))
  {
    var lines := [kw + " " + name + " {}"] + rest;
    HeaderTokens(kw, name);
    assert lines[0] == kw + " " + name + " {}";
    HeaderShapes(lines, kw, name);
    assert lines[1..] == rest;
  }

  /** The tokens of the header lines a writer produces. */
  lemma HeaderTokens(kw: string, name: string)
    requires IsWord(kw) && IsBlockName(name)
    ensures Tokens(kw + " " + name + " {") == [kw, name, "{"]
    ensures Tokens(kw + " " + name + " {}") == [kw, name, "{}"]
  {
    BlockNameIsWord(name);
    var x := kw + " " + name;
    assert x + " {" == x + " " + "{";
    assert x + " {}" == x + " " + "{}";
    TokensOfThree(kw, name, "{");
    TokensOfThree(kw, name, "{}");
  }

  lemma ClosedBody(name: string, content: seq<string>, rest: seq<string>)
    requires "}" !in content
    ensures BlockBody(name, content + ["}"] + rest) == Ok(Block(name, content, rest))
  {
    var ls := content + ["}"] + rest;
    ContentThenClose(content, rest);
    assert ls[..|content|] == content;
    assert ls[|content| + 1..] == rest;
  }

  lemma {:induction false} ContentThenClose(content: seq<string>, rest: seq<string>)
    requires "}" !in content
    ensures IndexOf(content + ["}"] + rest, "}") == Some(|content|)
    decreases |content|
  {
    var ls := content + ["}"] + rest;
    if content != [] {
      assert ls[1..] == content[1..] + ["}"] + rest;
      ContentThenClose(content[1..], rest);
    }
  }

  /** Without a closing line the block is rejected. */
  lemma UnclosedBlock(kw: string, name: string, content: seq<string>)
    requires IsWord(kw) && IsBlockName(name)
    requires "}" !in content
    ensures ParseNamedBlock([kw + " " + name + " {"] + content).Err?
  {
    var lines := [kw + " " + name + " {"] + content;
    HeaderTokens(kw, name);
    assert lines[0] == kw + " " + name + " {";
    HeaderShapes(lines, kw, name);
    assert lines[1..] == content;
  }
}
