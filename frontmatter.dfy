/**
 * Documents that open with a frontmatter block, as matched by the regular expression
 * `/^---\n([\s\S]*?)\n---\n([\s\S]*)$/`: an opening `---` line, the frontmatter up to the
 * first closing `\n---\n`, and the body after it.
 */
module Frontmatter {
  import opened Common
  import opened Strings

  const Open: string := "---\n"
  const Close: string := "\n---\n"

  datatype Sections = Sections(frontmatter: string, body: string)

  /** The document text a frontmatter and a body make. */
  function Compose(x: Sections): string
  {
    Open + x.frontmatter + Close + x.body
  }

  /**
   * The lazy group stops at the first delimiter: `Close` does not start anywhere inside the
   * frontmatter, including across its end.
   */
  predicate EndsAtFirstClose(frontmatter: string)
  {
    forall j :: 0 <= j < |frontmatter| ==> !OccursAt(frontmatter + Close, Close, j)
  }

  /**
   * The two groups of the match, or `None` when the text does not match: it must start with
   * `---\n` and hold a later `\n---\n`.
   */
  function SplitFrontmatter(content: string): (r: Option<Sections>)
    ensures r.Some? ==> Compose(r.value) == content && EndsAtFirstClose(r.value.frontmatter)
    ensures r.None? <==> !(Open <= content && Contains(content[|Open|..], Close))
  {
    if Open <= content then
      var rest := content[|Open|..];
      match IndexOf(rest, Close)
      case None => None
      case Some(k) =>
        var x := Sections(rest[..k], rest[k + |Close|..]);
        FirstCloseEnds(rest, k);
        ComposeAt(content, k);
        Some(x)
    else
      None
  }

  /** The text before the first delimiter ends at its first delimiter. */
  lemma FirstCloseEnds(rest: string, k: nat)
    requires OccursAt(rest, Close, k)
    requires forall j :: 0 <= j < k ==> !OccursAt(rest, Close, j)
    ensures EndsAtFirstClose(rest[..k])
  {
    var fm := rest[..k];
    assert fm + Close == rest[..k + |Close|];
    forall j | 0 <= j < |fm|
      ensures !OccursAt(fm + Close, Close, j)
    {
      assert !OccursAt(rest, Close, j);
      assert rest[j..j + |Close|] == rest[..k + |Close|][j..j + |Close|];
    }
  }

  /** Cutting the text after `Open` around a delimiter at `k` and composing again gives the text back. */
  lemma ComposeAt(content: string, k: nat)
    requires Open <= content
    requires OccursAt(content[|Open|..], Close, k)
    ensures var rest := content[|Open|..];
      Compose(Sections(rest[..k], rest[k + |Close|..])) == content
  {
    var rest := content[|Open|..];
    assert rest[k..k + |Close|] == Close;
    assert rest == rest[..k] + Close + rest[k + |Close|..];
    assert content == Open + rest;
  }

  /**
   * A frontmatter of two lines ends at its first delimiter when its second line does not start
   * with a dash.
   */
  lemma TwoLinesEnd(x: string, y: string)
    requires '\n' !in x && '\n' !in y
    requires y == [] || y[0] != '-'
    ensures EndsAtFirstClose(x + "\n" + y)
  {
    var fm := x + "\n" + y;
    var t := fm + Close;
    forall j | 0 <= j < |fm|
      ensures !OccursAt(t, Close, j)
    {
      CloseStart(t, j);
      if j < |x| {
        assert t[j] == x[j];
      } else if j > |x| {
        assert t[j] == y[j - |x| - 1];
      } else if y == [] {
        assert t[j + 1] == Close[0];
      } else {
        assert t[j + 1] == y[0];
      }
    }
  }

  /** Where the delimiter occurs there is a line break followed by a dash. */
  lemma CloseStart(t: string, j: int)
    ensures OccursAt(t, Close, j) ==> t[j] == '\n' && t[j + 1] == '-'
  {
    if OccursAt(t, Close, j) {
      assert t[j..j + |Close|][0] == t[j];
      assert t[j..j + |Close|][1] == t[j + 1];
    }
  }

  /** Composing a frontmatter that ends at its first delimiter, then splitting, gives it back. */
  lemma SplitCompose(x: Sections)
    requires EndsAtFirstClose(x.frontmatter)
    ensures SplitFrontmatter(Compose(x)) == Some(x)
  {
    var content := Compose(x);
    var fm := x.frontmatter;
    var rest := content[|Open|..];
    assert rest == fm + Close + x.body;
    assert OccursAt(rest, Close, |fm|);
    assert rest[..|fm| + |Close|] == fm + Close;
    forall j | 0 <= j < |fm|
      ensures !OccursAt(rest, Close, j)
    {
      assert !OccursAt(fm + Close, Close, j);
      assert rest[j..j + |Close|] == rest[..|fm| + |Close|][j..j + |Close|];
    }
    var k := IndexOf(rest, Close).value;
    assert k == |fm|;
    assert rest[..k] == fm;
    assert rest[k + |Close|..] == x.body;
  }
}
