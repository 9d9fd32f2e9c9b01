/**
 * How the list entries of one key are read back from the lines of a compose
 * file laid out as the generator lays it out: the key on its own line, then
 * its entries one per line, indented by six spaces and introduced by "- ".
 * Lines at that indentation that are not entries (comments) are skipped; the
 * first less-indented line ends the list.
 */
module Layout {
  import opened Wrappers
  import opened Text

  const ItemIndent := "      "

  /** The line starts with the six spaces of an entry's indentation. */
  predicate IsNested(l: string) {
    |l| >= 6 && l[0] == ' ' && l[1] == ' ' && l[2] == ' ' && l[3] == ' ' && l[4] == ' ' && l[5] == ' '
  }

  /** The indentation is followed by "- ". */
  predicate IsItem(l: string) {
    IsNested(l) && |l| >= 8 && l[6] == '-' && l[7] == ' '
  }

  function ItemValue(l: string): string
    requires IsItem(l)
  {
    l[8..]
  }

  /** The line of a list entry with value `v`. */
  function Item(v: string): (l: string)
    ensures IsItem(l) && ItemValue(l) == v && |l| == |ItemIndent| + 2 + |v|
    ensures OneLine(l) <==> OneLine(v)
  {
    assert (ItemIndent + "- " + v)[8..] == v;
    ItemIndent + "- " + v
  }

  /** A comment line at entry indentation. */
  function Note(text: string): (l: string)
    ensures IsNested(l) && !IsItem(l) && |l| == |ItemIndent| + 2 + |text|
    ensures OneLine(l) <==> OneLine(text)
  {
    ItemIndent + "# " + text
  }

  /** The values of the entries in the indented block that starts at line `i`. */
  function EntriesFrom(ls: seq<string>, i: nat): seq<string>
    decreases |ls| - i
  {
    if i >= |ls| || !IsNested(ls[i]) then []
    else (if IsItem(ls[i]) then [ItemValue(ls[i])] else []) + EntriesFrom(ls, i + 1)
  }

  /** The entries listed under the first occurrence of the key line `header`. */
  function SectionEntries(ls: seq<string>, header: string): seq<string> {
    match IndexOf(ls, header)
    case None => []
    case Some(i) => EntriesFrom(ls, i + 1)
  }

  /** The values of the entries among `body`, in order; comments contribute nothing. */
  function ItemValues(body: seq<string>): (vs: seq<string>)
    ensures |vs| <= |body|
  {
    if body == [] then []
    else (if IsItem(body[0]) then [ItemValue(body[0])] else []) + ItemValues(body[1..])
  }

  lemma ItemValuesCons(l: string, rest: seq<string>)
    ensures ItemValues([l] + rest) == (if IsItem(l) then [ItemValue(l)] else []) + ItemValues(rest)
  {
    assert ([l] + rest)[1..] == rest;
  }

  lemma ItemValuesNote(text: string, rest: seq<string>)
    ensures ItemValues([Note(text)] + rest) == ItemValues(rest)
  {
    ItemValuesCons(Note(text), rest);
  }

  lemma ItemValuesItem(v: string, rest: seq<string>)
    ensures ItemValues([Item(v)] + rest) == [v] + ItemValues(rest)
  {
    ItemValuesCons(Item(v), rest);
  }

  /** The entries read from line `|pre|` on are those of the nested `body`, up to the first shallower line. */
  lemma {:induction false} EntriesOfBlock(pre: seq<string>, body: seq<string>, post: seq<string>)
    requires forall l | l in body :: IsNested(l)
    requires post == [] || !IsNested(post[0])
    ensures EntriesFrom(pre + body + post, |pre|) == ItemValues(body)
    decreases |body|
  {
    var ls := pre + body + post;
    if body == [] {
      assert ls == pre + post;
    } else {
      assert ls[|pre|] == body[0];
      assert ls == (pre + [body[0]]) + body[1..] + post;
      EntriesOfBlock(pre + [body[0]], body[1..], post);
    }
  }

  /**
   * A key line that occurs nowhere before, followed by nested lines and then a
   * shallower one (or the end): its list is the entries among those lines.
   */
  lemma SectionOfBlock(pre: seq<string>, header: string, body: seq<string>, post: seq<string>)
    requires header !in pre
    requires forall l | l in body :: IsNested(l)
    requires post == [] || !IsNested(post[0])
    ensures SectionEntries(pre + [header] + body + post, header) == ItemValues(body)
  {
    IndexOfAfter(pre, header, body + post);
    assert pre + [header] + body + post == pre + [header] + (body + post);
    EntriesOfBlock(pre + [header], body, post);
  }
}
