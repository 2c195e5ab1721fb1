/** The warning normalizer: turns the provider's raw entries for one mint
    into typed warnings, in provider order. */
module Normalizer {
  import opened Wrappers
  import opened Strings
  import opened Tables

  /** One element of the provider's warning array. `Null` is a null (or
      otherwise falsy) element; an object's `type` and `message` may be
      missing, which `None` stands for. */
  datatype RawEntry = Null | Entry(code: Option<string>, message: Option<string>)

  /** A normalized warning; `code` is the source's `type` field. */
  datatype Warning = Warning(code: string, severity: Severity, message: string)

  /** The entry is an object whose `type` is present and non-empty
      (the loop skips everything else). */
  predicate HasType(e: RawEntry)
  {
    e.Entry? && e.code.Some? && e.code.value != ""
  }

  /** Severity by substring test, `NOT_SELLABLE` first, then `PERMANENT` or
      `FREEZE`, else the lowest tier. */
  function SeverityOf(code: string): (s: Severity)
  {
    if Includes(code, "NOT_SELLABLE") then critical
    else if Includes(code, "PERMANENT") || Includes(code, "FREEZE") then warning
    else info
  }

  /** Each tier in terms of the three patterns: `NOT_SELLABLE` decides alone;
      without it, `PERMANENT` or `FREEZE` gives the middle tier. */
  lemma SeverityTiers(code: string)
    ensures SeverityOf(code) == critical <==> Includes(code, "NOT_SELLABLE")
    ensures SeverityOf(code) == warning <==>
      !Includes(code, "NOT_SELLABLE") && (Includes(code, "PERMANENT") || Includes(code, "FREEZE"))
    ensures SeverityOf(code) == info <==>
      !Includes(code, "NOT_SELLABLE") && !Includes(code, "PERMANENT") && !Includes(code, "FREEZE")
  {
  }

  /** An example of the priority of the tests: the type
      `NOT_SELLABLE_PERMANENT_FREEZE` holds all three patterns and is critical. */
  lemma SeverityPriority(code: string)
    requires code == "NOT_SELLABLE_PERMANENT_FREEZE"
    ensures Includes(code, "PERMANENT") && Includes(code, "FREEZE")
    ensures SeverityOf(code) == critical
  {
    assert code[0..12] == "NOT_SELLABLE";
    assert OccursAt(code, "NOT_SELLABLE", 0);
    assert code[13..22] == "PERMANENT";
    assert OccursAt(code, "PERMANENT", 13);
    assert code[23..29] == "FREEZE";
    assert OccursAt(code, "FREEZE", 23);
  }

  /** A type that lacks a letter of each of the three patterns is in the
      lowest tier. */
  lemma SeverityInfoByLetters(code: string, a: char, b: char, c: char)
    requires a in "NOT_SELLABLE" && a !in code
    requires b in "PERMANENT" && b !in code
    requires c in "FREEZE" && c !in code
    ensures SeverityOf(code) == info
  {
    ExcludesByChar(code, "NOT_SELLABLE", a);
    ExcludesByChar(code, "PERMANENT", b);
    ExcludesByChar(code, "FREEZE", c);
  }

  /** The message of a warning: the provider's own when it is non-empty,
      otherwise one made from the type. */
  function MessageOf(message: Option<string>, code: string): (m: string)
  {
    if message.Some? && message.value != "" then message.value
    else code + " risk detected"
  }

  /** The provider's message when it is non-empty, otherwise the type followed
      by " risk detected"; never empty when the type is not. */
  lemma MessageChoice(message: Option<string>, code: string)
    ensures message.Some? && message.value != "" ==> MessageOf(message, code) == message.value
    ensures !(message.Some? && message.value != "") ==>
      var m := MessageOf(message, code);
      |m| == |code| + 14 && m[..|code|] == code && m[|code|..] == " risk detected"
    ensures code != "" ==> MessageOf(message, code) != ""
  {
  }

  /** The warning built from an entry the loop keeps. */
  function MakeWarning(e: RawEntry): (w: Warning)
    requires HasType(e)
    ensures w.code == e.code.value && w.code != ""
    ensures w.severity == SeverityOf(e.code.value)
    ensures w.message == MessageOf(e.message, e.code.value) && w.message != ""
  {
    assert |MessageOf(e.message, e.code.value)| > 0;
    Warning(e.code.value, SeverityOf(e.code.value), MessageOf(e.message, e.code.value))
  }

  /** The warning built from a typed entry that carries no message. */
  lemma DefaultMessageWarning(e: RawEntry, s: Severity)
    requires HasType(e) && e.message.None? && SeverityOf(e.code.value) == s
    ensures MakeWarning(e) == Warning(e.code.value, s, e.code.value + " risk detected")
  {
  }

  /** What one raw entry contributes to the output: one warning or none. */
  function NormalizeEntry(e: RawEntry): (ws: seq<Warning>)
    ensures HasType(e) <==> |ws| == 1
    ensures |ws| <= 1
  {
    if HasType(e) then [MakeWarning(e)] else []
  }

  /** The normalized warning list, in provider order. */
  function Normalize(raw: seq<RawEntry>): (ws: seq<Warning>)
    ensures |ws| <= |raw|
    ensures forall k :: 0 <= k < |ws| ==> ws[k].code != "" && ws[k].message != ""
  {
    if raw == [] then [] else NormalizeEntry(raw[0]) + Normalize(raw[1..])
  }

  /** Normalizing a concatenation normalizes each part. */
  lemma {:induction false} NormalizeAppend(a: seq<RawEntry>, b: seq<RawEntry>)
    ensures Normalize(a + b) == Normalize(a) + Normalize(b)
    decreases |a|
  {
    if a == [] {
      assert a + b == b;
    } else {
      assert (a + b)[0] == a[0];
      assert (a + b)[1..] == a[1..] + b;
      NormalizeAppend(a[1..], b);
    }
  }

  /** The positions of the entries the normalizer keeps, in increasing order. */
  ghost function KeptIndices(raw: seq<RawEntry>): (ix: seq<nat>)
    ensures |ix| <= |raw|
    ensures forall k :: 0 <= k < |ix| ==> ix[k] < |raw| && HasType(raw[ix[k]])
    ensures forall k, l :: 0 <= k < l < |ix| ==> ix[k] < ix[l]
    ensures forall i :: 0 <= i < |raw| && HasType(raw[i]) ==> i in ix
  {
    if raw == [] then []
    else
      var init := raw[..|raw| - 1];
      assert forall i :: 0 <= i < |init| ==> init[i] == raw[i];
      KeptIndices(init) + (if HasType(raw[|raw| - 1]) then [|raw| - 1] else [])
  }

  /** The k-th output warning is built from the k-th kept entry: entries
      without a type are skipped, each other entry gives exactly one warning,
      in provider order, with its type unchanged. */
  lemma {:induction false} NormalizeIndexed(raw: seq<RawEntry>)
    ensures |Normalize(raw)| == |KeptIndices(raw)|
    ensures forall k :: 0 <= k < |Normalize(raw)| ==>
      Normalize(raw)[k] == MakeWarning(raw[KeptIndices(raw)[k]])
  {
    if raw != [] {
      var init, last := raw[..|raw| - 1], raw[|raw| - 1];
      assert raw == init + [last];
      NormalizeIndexed(init);
      NormalizeAppend(init, [last]);
      assert Normalize([last]) == NormalizeEntry(last);
      forall k | 0 <= k < |KeptIndices(init)|
        ensures raw[KeptIndices(init)[k]] == init[KeptIndices(init)[k]]
      {
      }
    }
  }

  /** The output is empty exactly when no entry has a type. */
  lemma NormalizeEmptyIff(raw: seq<RawEntry>)
    ensures Normalize(raw) == [] <==> forall i :: 0 <= i < |raw| ==> !HasType(raw[i])
  {
    NormalizeIndexed(raw);
    var ix := KeptIndices(raw);
    if Normalize(raw) == [] {
      assert ix == [];
    } else {
      assert HasType(raw[ix[0]]);
    }
  }

  /** The normalizer's loop: walks the entries and pushes one warning for
      each entry that has a type. */
  method NormalizeWarnings(entries: seq<RawEntry>) returns (warnings: seq<Warning>)
    ensures warnings == Normalize(entries)
  {
    warnings := [];
    for i := 0 to |entries|
      invariant warnings == Normalize(entries[..i])
    {
      var entry := entries[i];
      assert entries[..i + 1] == entries[..i] + [entry];
      NormalizeAppend(entries[..i], [entry]);
      if !HasType(entry) {
        continue;
      }
      var code := entry.code.value;
      var severity := SeverityOf(code);
      warnings := warnings + [Warning(code, severity, MessageOf(entry.message, code))];
    }
    assert entries[..|entries|] == entries;
  }
}
