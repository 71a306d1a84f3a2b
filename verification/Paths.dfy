/** File paths compare by components, so one file may be spelled in several ways. */
module Paths {
  import opened Text

  /** The pieces that name something: neither empty nor the current directory. */
  function Named(pieces: seq<string>): seq<string> {
    if pieces == [] then []
    else (if pieces[0] in {"", "."} then [] else [pieces[0]]) + Named(pieces[1..])
  }

  /** The root of an absolute path, or the dot a relative path starts with. */
  function Root(path: string): seq<string> {
    if path != "" && path[0] == '/' then ["/"]
    else if Split(path, '/')[0] == "." then ["."]
    else []
  }

  function Components(path: string): seq<string> {
    Root(path) + Named(Split(path, '/'))
  }

  lemma {:induction false} SplitAround(a: string, b: string)
    ensures Split(a + "/" + b, '/') == Split(a, '/') + Split(b, '/')
    decreases |a|
  {
    var i := IndexOf(a, '/');
    if i == |a| {
      assert a[..i] == a;
      SplitNone(a, '/');
      SplitOnce(a, b, '/');
    } else {
      var first, rest := a[..i], a[i + 1..];
      assert a == first + "/" + rest;
      Regroup(first, "/", rest, "/", b);
      SplitOnce(first, rest, '/');
      SplitOnce(first, rest + "/" + b, '/');
      SplitAround(rest, b);
      Associate([first], Split(rest, '/'), Split(b, '/'));
    }
  }

  lemma Regroup(a: string, s: string, b: string, t: string, c: string)
    ensures a + s + b + t + c == a + s + (b + t + c)
  {
  }

  lemma Associate<T>(a: seq<T>, b: seq<T>, c: seq<T>)
    ensures a + (b + c) == a + b + c
  {
  }

  lemma {:induction false} NamedConcat(a: seq<string>, b: seq<string>)
    ensures Named(a + b) == Named(a) + Named(b)
  {
    if a == [] {
      assert a + b == b;
    } else {
      assert (a + b)[1..] == a[1..] + b;
      NamedConcat(a[1..], b);
      var x := if a[0] in {"", "."} then [] else [a[0]];
      Associate(x, Named(a[1..]), Named(b));
    }
  }

  lemma {:induction false} ComponentsAround(a: string, b: string)
    requires a != ""
    ensures Components(a + "/" + b) == Components(a) + Named(Split(b, '/'))
  {
    SplitAround(a, b);
    NamedConcat(Split(a, '/'), Split(b, '/'));
    assert (a + "/" + b)[0] == a[0];
    Associate(Root(a), Named(Split(a, '/')), Named(Split(b, '/')));
  }

  /** Doubled slashes, inner dots and a trailing slash make no difference, a leading dot does. */
  lemma {:induction false} SpellingsAgree(a: string, b: string)
    requires a != ""
    ensures Components(a + "//" + b) == Components(a + "/" + b)
    ensures Components(a + "/./" + b) == Components(a + "/" + b)
    ensures Components(a + "/") == Components(a)
    ensures Components("./" + b) == ["."] + Named(Split(b, '/'))
  {
    InnerSpelling(a, "", b);
    InnerSpelling(a, ".", b);
    assert "/" + "" + "/" == "//" && "/" + "." + "/" == "/./";
    TrailingSlash(a);
    LeadingDot(b);
  }

  lemma InnerSpelling(a: string, piece: string, b: string)
    requires a != "" && piece in {"", "."}
    ensures Components(a + ("/" + piece + "/") + b) == Components(a + "/" + b)
  {
    ComponentsAround(a, b);
    ComponentsAround(a, piece + "/" + b);
    Nameless(piece, b);
    assert a + ("/" + piece + "/") + b == a + "/" + (piece + "/" + b);
  }

  lemma TrailingSlash(a: string)
    requires a != ""
    ensures Components(a + "/") == Components(a)
  {
    ComponentsAround(a, "");
    assert a + "/" + "" == a + "/";
    SplitNone("", '/');
    assert [""][1..] == [] && Named([""]) == [];
    assert Components(a) + [] == Components(a);
  }

  lemma LeadingDot(b: string)
    ensures Components("./" + b) == ["."] + Named(Split(b, '/'))
  {
    DotAlone();
    ComponentsAround(".", b);
    assert "." + "/" == "./";
  }

  lemma DotAlone()
    ensures Components(".") == ["."]
  {
    SplitNone(".", '/');
    assert ["."][1..] == [];
  }

  lemma Nameless(piece: string, b: string)
    requires piece in {"", "."}
    ensures Named(Split(piece + "/" + b, '/')) == Named(Split(b, '/'))
  {
    SplitAround(piece, b);
    SplitNone(piece, '/');
    assert ([piece] + Split(b, '/'))[1..] == Split(b, '/');
  }
}
