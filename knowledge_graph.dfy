/**
 The knowledge graph is a dictionary from a jargon term to the meaning the user
 gave it. At the end of a conversation the model reports a list of
 "knowledge pieces", each meant to be a `{"jargon": ..., "value": ...}` object,
 and `stop_processing` writes them into the dictionary one after the other
 inside a single `try` (main.py:200-204).
 */
module KnowledgeGraph {
  import opened Wrappers

  type Graph = map<string, string>

  /** One entry of `knowledge_pieces`; a field the model left out is `None`. */
  datatype Piece = Piece(jargon: Option<string>, value: Option<string>)

  /** Indexing a piece by both keys succeeds. */
  predicate WellFormed(p: Piece) {
    p.jargon.Some? && p.value.Some?
  }

  /**
   The number of pieces the merge loop writes before the first one that raises:
   the length of the longest prefix of well-formed pieces.
   */
  function GoodPrefix(pieces: seq<Piece>): (n: nat)
    ensures n <= |pieces|
    ensures forall j :: 0 <= j < n ==> WellFormed(pieces[j])
    ensures n < |pieces| ==> !WellFormed(pieces[n])
  {
    if pieces == [] || !WellFormed(pieces[0]) then 0 else 1 + GoodPrefix(pieces[1..])
  }

  /**
   The dictionary after the merge loop: each well-formed piece in turn overwrites
   the entry for its exact jargon string; the first malformed piece raises, the
   handler swallows the exception, and the pieces after it are never looked at.
   */
  function Merged(graph: Graph, pieces: seq<Piece>): (r: Graph)
    ensures graph.Keys <= r.Keys
    decreases |pieces|
  {
    if pieces == [] || !WellFormed(pieces[0]) then graph
    else Merged(graph[pieces[0].jargon.value := pieces[0].value.value], pieces[1..])
  }

  /** Peeling a well-formed first piece shortens the well-formed prefix by one. */
  lemma {:induction false} GoodPrefixTail(pieces: seq<Piece>)
    requires pieces != [] && WellFormed(pieces[0])
    ensures GoodPrefix(pieces[1..]) == GoodPrefix(pieces) - 1
  {
  }

  /**
   A key that no written piece names keeps its old entry, or stays absent.
   Names are compared exactly, so "Region" and "region" are different keys.
   */
  lemma {:induction false} MergedUntouched(graph: Graph, pieces: seq<Piece>, k: string)
    requires forall j :: 0 <= j < GoodPrefix(pieces) ==> pieces[j].jargon != Some(k)
    ensures k in Merged(graph, pieces) <==> k in graph
    ensures k in graph ==> Merged(graph, pieces)[k] == graph[k]
    decreases |pieces|
  {
    if pieces != [] && WellFormed(pieces[0]) {
      var rest := pieces[1..];
      GoodPrefixTail(pieces);
      forall j | 0 <= j < GoodPrefix(rest) ensures rest[j].jargon != Some(k) {
        assert rest[j] == pieces[j + 1];
      }
      MergedUntouched(graph[pieces[0].jargon.value := pieces[0].value.value], rest, k);
    }
  }

  /**
   A written piece that no later written piece overrides leaves its jargon
   mapped to its value: every written key ends up holding the value of the LAST
   well-formed piece that names it, so a later duplicate wins.
   */
  lemma {:induction false} MergedEntry(graph: Graph, pieces: seq<Piece>, i: nat)
    requires i < GoodPrefix(pieces)
    requires forall j :: i < j < GoodPrefix(pieces) ==> pieces[j].jargon != pieces[i].jargon
    ensures pieces[i].jargon.value in Merged(graph, pieces)
    ensures Merged(graph, pieces)[pieces[i].jargon.value] == pieces[i].value.value
    decreases |pieces|
  {
    var rest := pieces[1..];
    var next := graph[pieces[0].jargon.value := pieces[0].value.value];
    GoodPrefixTail(pieces);
    if i == 0 {
      forall j | 0 <= j < GoodPrefix(rest) ensures rest[j].jargon != Some(pieces[0].jargon.value) {
        assert rest[j] == pieces[j + 1];
      }
      MergedUntouched(next, rest, pieces[0].jargon.value);
    } else {
      forall j | i - 1 < j < GoodPrefix(rest) ensures rest[j].jargon != rest[i - 1].jargon {
        assert rest[j] == pieces[j + 1];
      }
      MergedEntry(next, rest, i - 1);
    }
  }

  /**
   Every key of the merged dictionary was there before or is named by a written
   piece: the merge adds no other entries.
   */
  lemma {:induction false} MergedKeys(graph: Graph, pieces: seq<Piece>, k: string)
    requires k in Merged(graph, pieces)
    ensures k in graph || exists j :: 0 <= j < GoodPrefix(pieces) && pieces[j].jargon == Some(k)
  {
    if !exists j :: 0 <= j < GoodPrefix(pieces) && pieces[j].jargon == Some(k) {
      MergedUntouched(graph, pieces, k);
    }
  }

  /**
   A malformed piece ends the merge without an error escaping: the pieces before
   it are all written, it and every later piece are skipped.
   */
  lemma {:induction false} MergedStopsAtMalformed(graph: Graph, pieces: seq<Piece>, i: nat)
    requires i < |pieces| && !WellFormed(pieces[i])
    requires forall j :: 0 <= j < i ==> WellFormed(pieces[j])
    ensures GoodPrefix(pieces) == i
    ensures Merged(graph, pieces) == Merged(graph, pieces[..i])
    decreases |pieces|
  {
    if i == 0 {
      assert pieces[..0] == [];
    } else {
      var rest := pieces[1..];
      assert pieces[..i][1..] == rest[..i - 1];
      MergedStopsAtMalformed(graph[pieces[0].jargon.value := pieces[0].value.value], rest, i - 1);
    }
  }

  /** ASCII lower-casing, only to state what the merge does NOT do. */
  function AsciiLower(s: string): string {
    seq(|s|, i requires 0 <= i < |s| => if 'A' <= s[i] <= 'Z' then (s[i] as int + 32) as char else s[i])
  }

  /**
   No case-insensitive de-duplication: merging a piece for "x" into a graph that
   already holds "X" keeps both entries, two keys equal up to case.
   */
  lemma CaseVariantsCoexist()
    ensures var g := Merged(map["X" := "first"], [Piece(Some("x"), Some("second"))]);
      exists k1, k2 :: k1 in g && k2 in g && k1 != k2 && AsciiLower(k1) == AsciiLower(k2)
  {
    var g := Merged(map["X" := "first"], [Piece(Some("x"), Some("second"))]);
    assert "X" in g && "x" in g;
    assert AsciiLower("X") == AsciiLower("x");
  }
}
