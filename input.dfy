/**
 * The acceptance conditions of the two input prompts and the choice of
 * lattice the accepted structure letter makes (percolation_targets_sim.py,
 * lines 25, 35 and 52). Reading the console and parsing numbers are not
 * modelled; only the conditions the answers must meet.
 */
module Input {
  import opened WinProbability

  /** The precision prompt accepts a step prec with 0 < prec <= 0.05. */
  predicate PrecisionAccepted(prec: real)
  {
    0.0 < prec && prec <= 0.05
  }

  /** Upper-casing of one character; only the ASCII letters a..z change. */
  function UpperChar(c: char): char
  {
    if 'a' <= c <= 'z' then (c as int - 32) as char else c
  }

  /** Upper-casing of a string, character by character. */
  function Upper(s: string): (u: string)
    ensures |u| == |s|
    ensures forall i :: 0 <= i < |s| ==> u[i] == UpperChar(s[i])
  {
    if s == [] then [] else [UpperChar(s[0])] + Upper(s[1..])
  }

  /** The structure prompt accepts an answer whose upper-case form is "W" or "Z". */
  predicate StructureAccepted(s: string)
  {
    Upper(s) == "W" || Upper(s) == "Z"
  }

  /** A string upper-cases to the one capital letter c exactly when it is c or its lower-case form. */
  lemma UpperIsLetter(s: string, c: char)
    requires 'A' <= c <= 'Z'
    ensures Upper(s) == [c] <==> s == [c] || s == [(c as int + 32) as char]
  {
    if Upper(s) == [c] {
      assert |s| == 1 && UpperChar(s[0]) == c;
      assert s == [s[0]];
    }
    if s == [c] || s == [(c as int + 32) as char] {
      assert Upper(s)[0] == c;
    }
  }

  /** Exactly the four answers "w", "W", "z" and "Z" are accepted. */
  lemma StructureAcceptedExactly(s: string)
    ensures StructureAccepted(s) <==> s == "w" || s == "W" || s == "z" || s == "Z"
  {
    UpperIsLetter(s, 'W');
    UpperIsLetter(s, 'Z');
  }

  /** The lattice an answer selects: the wedge for "w" or "W", the full grid for anything else. */
  function SelectTopology(s: string): (t: Topology)
    ensures t == Wedge <==> s == "w" || s == "W"
  {
    UpperIsLetter(s, 'W');
    if Upper(s) == "W" then Wedge else FullGrid
  }
}
