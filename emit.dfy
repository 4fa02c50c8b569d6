/**
 * The output of the command, as tokens rather than formatted text, and
 * what a container's block of output must look like: a heading, then
 * either the placeholder (the resolved map was empty) or one `key=value`
 * line per entry of the map, in the unspecified order of a Go map range,
 * then a blank separator.
 */
module Emit {

  /** `# <name>` with its blank line, `key=value`, the "no variables" message, the blank line. */
  datatype Line = Header(container: string) | Var(key: string, value: string) | Placeholder(container: string) | Separator

  /** The lines that list the entries of `m`. */
  function MapLines(m: map<string, string>): set<Line>
  {
    set k | k in m :: Var(k, m[k])
  }

  /**
   * `body` is what draining `m` can print: the last line printed is some
   * entry of `m`, and the lines before it drain `m` without that entry.
   */
  ghost predicate Lists(m: map<string, string>, body: seq<Line>)
    decreases |body|
  {
    if body == [] then m == map[]
    else
      var last := body[|body| - 1];
      && last.Var? && last.key in m && last.value == m[last.key]
      && Lists(m - {last.key}, body[..|body| - 1])
  }

  /** What is printed between a container's heading and separator when its resolved map is `m`. */
  ghost predicate Drained(name: string, m: map<string, string>, body: seq<Line>)
  {
    if m == map[] then body == [Placeholder(name)] else Lists(m, body)
  }

  /** The block printed for container `name` when its resolved map is `m`. */
  ghost predicate Block(name: string, m: map<string, string>, lines: seq<Line>)
  {
    && 2 <= |lines|
    && lines[0] == Header(name)
    && lines[|lines| - 1] == Separator
    && Drained(name, m, lines[1..|lines| - 1])
  }

  /** A block lists exactly the entries of its map: each one, with its value, and no other. */
  lemma BlockLines(name: string, m: map<string, string>, lines: seq<Line>)
    requires Block(name, m, lines)
    ensures forall k :: k in m ==> Var(k, m[k]) in lines
    ensures forall l :: l in lines && l.Var? ==> l.key in m && l.value == m[l.key]
    ensures m == map[] ==> lines == [Header(name), Placeholder(name), Separator]
    ensures m != map[] ==> Placeholder(name) !in lines
  {
    var body := lines[1..|lines| - 1];
    if m == map[] {
      assert lines == [lines[0]] + body + [lines[|lines| - 1]];
    } else {
      ListsEveryEntry(m, body);
      forall l | l in lines
        ensures l.Var? ==> l.key in m && l.value == m[l.key]
        ensures l != Placeholder(name)
      {
        var i :| 0 <= i < |lines| && lines[i] == l;
        if 0 < i < |lines| - 1 {
          assert body[i - 1] == l;
          assert l in MapLines(m);
        }
      }
      forall k | k in m ensures Var(k, m[k]) in lines {
        var i :| 0 <= i < |body| && body[i] == Var(k, m[k]);
        assert lines[i + 1] == body[i];
      }
    }
  }

  /** The blocks one after the other. */
  function Flatten(blocks: seq<seq<Line>>): seq<Line>
    decreases |blocks|
  {
    if blocks == [] then [] else Flatten(blocks[..|blocks| - 1]) + blocks[|blocks| - 1]
  }

  lemma FlattenSnoc(blocks: seq<seq<Line>>, b: seq<Line>)
    ensures Flatten(blocks + [b]) == Flatten(blocks) + b
  {
  }

  /**
   * One turn of the drain loop: printing entry `key` of the map left, `m`,
   * and deleting it, extends a drain of the entries `shown` already printed.
   */
  lemma DrainStep(m: map<string, string>, shown: map<string, string>, lines: seq<Line>, key: string)
    requires key in m && m.Keys !! shown.Keys
    requires Lists(shown, lines)
    ensures (m - {key}).Keys !! shown[key := m[key]].Keys
    ensures m + shown == (m - {key}) + shown[key := m[key]]
    ensures Lists(shown[key := m[key]], lines + [Var(key, m[key])])
  {
    assert (lines + [Var(key, m[key])])[..|lines|] == lines;
    assert shown[key := m[key]] - {key} == shown;
  }

  /** Printing one entry and deleting it: the entry lines left, and the one printed. */
  lemma MapLinesRemove(m: map<string, string>, k: string)
    requires k in m
    ensures MapLines(m) == MapLines(m - {k}) + {Var(k, m[k])}
    ensures Var(k, m[k]) !in MapLines(m - {k})
  {
    var rest := m - {k};
    forall l | l in MapLines(m) ensures l in MapLines(rest) + {Var(k, m[k])} {
      var k' :| k' in m && l == Var(k', m[k']);
      if k' != k { assert k' in rest; }
    }
  }

  /** A map has as many entry lines as entries. */
  lemma {:induction false} MapLinesCard(m: map<string, string>)
    ensures |MapLines(m)| == |m|
    decreases |m|
  {
    if m != map[] {
      var k :| k in m;
      var rest := m - {k};
      MapLinesCard(rest);
      MapLinesRemove(m, k);
      assert m.Keys == rest.Keys + {k};
    }
  }

  /** Draining prints each entry line of the map exactly once, in some order, and nothing else. */
  lemma {:induction false} ListsIsPermutation(m: map<string, string>, body: seq<Line>)
    requires Lists(m, body)
    ensures multiset(body) == multiset(MapLines(m))
    decreases |body|
  {
    if body == [] {
      assert MapLines(m) == {};
    } else {
      var prefix := body[..|body| - 1];
      var last := body[|body| - 1];
      ListsIsPermutation(m - {last.key}, prefix);
      MapLinesRemove(m, last.key);
      assert body == prefix + [last];
    }
  }

  /** Every entry is printed, nothing else is, and there are as many lines as entries. */
  lemma ListsEveryEntry(m: map<string, string>, body: seq<Line>)
    requires Lists(m, body)
    ensures |body| == |m|
    ensures forall k :: k in m ==> Var(k, m[k]) in body
    ensures forall i :: 0 <= i < |body| ==> body[i] in MapLines(m)
  {
    ListsIsPermutation(m, body);
    MapLinesCard(m);
    assert |multiset(body)| == |multiset(MapLines(m))|;
    forall k | k in m ensures Var(k, m[k]) in body {
      assert Var(k, m[k]) in MapLines(m);
      assert multiset(body)[Var(k, m[k])] == multiset(MapLines(m))[Var(k, m[k])];
    }
    forall i | 0 <= i < |body| ensures body[i] in MapLines(m) {
      assert multiset(body)[body[i]] > 0;
    }
  }

  /** Any two drains of one map print the same lines, up to order. */
  lemma DrainsArePermutations(m: map<string, string>, a: seq<Line>, b: seq<Line>)
    requires Lists(m, a) && Lists(m, b)
    ensures multiset(a) == multiset(b)
  {
    ListsIsPermutation(m, a);
    ListsIsPermutation(m, b);
  }
}
