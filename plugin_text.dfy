/**
 * The string helpers of the jQuery plugin file: `$.ns` (namespaced event
 * names), `$.mapify` (an array turned into a JavaScript Map) and the
 * `escapeHtml` helper of the mirror editor.
 */
module PluginText {

  import opened Wrappers
  import opened PhpValues

  /** The characters JavaScript's `\s` matches. */
  predicate IsJsSpace(c: char)
  {
    || c == ' ' || c == '\t' || c == '\n' || c == '\U{0B}' || c == '\U{0C}' || c == '\r'
    || c == '\U{A0}' || c == '\U{1680}' || ('\U{2000}' <= c <= '\U{200A}')
    || c == '\U{2028}' || c == '\U{2029}' || c == '\U{202F}' || c == '\U{205F}'
    || c == '\U{3000}' || c == '\U{FEFF}'
  }

  predicate NoSpace(s: string)
  {
    forall k :: 0 <= k < |s| ==> !IsJsSpace(s[k])
  }

  /** The length of the longest prefix of `s` without whitespace. */
  function SpaceFreePrefix(s: string): (i: nat)
    ensures i <= |s| && NoSpace(s[..i])
    ensures i < |s| ==> IsJsSpace(s[i])
  {
    if s == [] || IsJsSpace(s[0]) then 0
    else
      var n := SpaceFreePrefix(s[1..]);
      assert s[..n + 1] == [s[0]] + s[1..][..n];
      n + 1
  }

  /** The end of the run of whitespace that starts at `i`. */
  function SpaceRunEnd(s: string, i: nat): (j: nat)
    requires i <= |s|
    ensures i <= j <= |s|
    ensures forall k :: i <= k < j ==> IsJsSpace(s[k])
    ensures j < |s| ==> !IsJsSpace(s[j])
    decreases |s| - i
  {
    if i < |s| && IsJsSpace(s[i]) then SpaceRunEnd(s, i + 1) else i
  }

  /**
   * `s.split(/\s+/)`: the pieces between maximal runs of whitespace. Leading
   * or trailing whitespace gives an empty first or last piece; "" gives [""].
   */
  function SplitWhitespace(s: string): (tokens: seq<string>)
    ensures |tokens| >= 1
    ensures forall t :: t in tokens ==> NoSpace(t)
    decreases |s|
  {
    var i := SpaceFreePrefix(s);
    if i == |s| then
      assert s[..i] == s;
      [s]
    else
      var j := SpaceRunEnd(s, i);
      [s[..i]] + SplitWhitespace(s[j..])
  }

  /** Each event name with the namespace suffix `.NS`. */
  function Suffixed(events: seq<string>, ns: string): (r: seq<string>)
    ensures |r| == |events|
    ensures forall i :: 0 <= i < |r| ==> r[i] == events[i] + "." + ns
  {
    seq(|events|, i requires 0 <= i < |events| => events[i] + "." + ns)
  }

  /**
   * `$.ns(NS, events)`; any further arguments are ignored. For a namespace
   * without spaces, the result splits back into the event names of the
   * input, in order and in number, each with the suffix `.NS`.
   */
  function Ns(ns: string, events: string): (r: string)
    ensures NoSpace(ns) ==> SplitWhitespace(r) == Suffixed(SplitWhitespace(events), ns)
  {
    var r := Implode(" ", Suffixed(SplitWhitespace(events), ns));
    if NoSpace(ns) then SuffixedTokens(ns, SplitWhitespace(events)); r else r
  }

  /** Splitting a space-joined list of non-empty, space-free tokens gives the tokens back. */
  lemma {:induction false} SplitJoin(ts: seq<string>)
    requires |ts| >= 1
    requires forall t :: t in ts ==> t != "" && NoSpace(t)
    ensures SplitWhitespace(Implode(" ", ts)) == ts
  {
    if |ts| == 1 {
      assert Implode(" ", ts) == ts[0];
      assert ts[0] in ts;
      assert SpaceFreePrefix(ts[0]) == |ts[0]|;
    } else {
      var t := ts[0];
      assert t in ts;
      var rest := Implode(" ", ts[1..]);
      var s := t + " " + rest;
      assert Implode(" ", ts) == s;
      assert s[..|t|] == t;
      var i := SpaceFreePrefix(s);
      assert i == |t| by {
        assert forall k :: 0 <= k < |t| ==> s[k] == t[k] && !IsJsSpace(s[k]);
        assert IsJsSpace(s[|t|]);
      }
      assert ts[1] in ts && ts[1] == ts[1..][0];
      ImplodeStartsWithFirst(ts[1..]);
      assert s[|t| + 1..] == rest;
      assert SpaceRunEnd(s, i) == |t| + 1 by {
        assert SpaceRunEnd(s, i) == SpaceRunEnd(s, i + 1);
        assert s[|t| + 1] == rest[0];
      }
      assert forall x :: x in ts[1..] ==> x in ts;
      SplitJoin(ts[1..]);
    }
  }

  /** A space-joined list starts with the first character of its first token. */
  lemma ImplodeStartsWithFirst(ts: seq<string>)
    requires |ts| >= 1 && ts[0] != ""
    ensures |Implode(" ", ts)| > 0 && Implode(" ", ts)[0] == ts[0][0]
  {
    if |ts| > 1 {
      assert Implode(" ", ts) == ts[0] + " " + Implode(" ", ts[1..]);
    }
  }

  /** Space-free event names, suffixed with a space-free namespace, join and split back unchanged. */
  lemma SuffixedTokens(ns: string, events: seq<string>)
    requires NoSpace(ns) && |events| >= 1
    requires forall e :: e in events ==> NoSpace(e)
    ensures SplitWhitespace(Implode(" ", Suffixed(events, ns))) == Suffixed(events, ns)
  {
    var ts := Suffixed(events, ns);
    forall t | t in ts ensures t != "" && NoSpace(t) {
      var i :| 0 <= i < |ts| && ts[i] == t;
      var e := events[i];
      assert e in events;
      assert t == e + "." + ns;
      assert t[|e|] == '.';
      forall k | 0 <= k < |t| ensures !IsJsSpace(t[k]) {
        if k < |e| {
          assert t[k] == e[k];
        } else if k > |e| {
          assert t[k] == ns[k - |e| - 1];
        }
      }
    }
    SplitJoin(ts);
  }

  /** The event string `numberOnly` binds: only `keydown`, the later event names being ignored. */
  lemma NumberOnlyEvents()
    ensures Ns("numbersOnly", "keydown") == "keydown.numbersOnly"
  {
    assert SpaceFreePrefix("keydown") == 7;
    assert SplitWhitespace("keydown") == ["keydown"];
    assert "keydown" + "." + "numbersOnly" == "keydown.numbersOnly";
    assert Suffixed(["keydown"], "numbersOnly") == ["keydown.numbersOnly"];
    assert Implode(" ", ["keydown.numbersOnly"]) == "keydown.numbersOnly";
  }

  // ---------------------------------------------------------------------
  // $.mapify

  /** The first argument of `$.mapify`: an array, or any other value. */
  datatype Input<T> = NotArray | Array(items: seq<T>)

  /** What `$.mapify` returns: its argument unchanged, or a Map as its entries in order. */
  datatype Mapified<T> = Unchanged(input: Input<T>) | JsMap(entries: seq<(T, T)>)

  function Keys<T>(entries: seq<(T, T)>): (ks: seq<T>)
    ensures |ks| == |entries|
    ensures forall i :: 0 <= i < |ks| ==> ks[i] == entries[i].0
  {
    seq(|entries|, i requires 0 <= i < |entries| => entries[i].0)
  }

  /** The place of the first entry holding `k`. */
  function KeyIndex<T(==)>(entries: seq<(T, T)>, k: T): (i: nat)
    requires k in Keys(entries)
    ensures i < |entries| && entries[i].0 == k
    ensures forall j :: 0 <= j < i ==> entries[j].0 != k
  {
    assert Keys(entries) == [entries[0].0] + Keys(entries[1..]);
    if entries[0].0 == k then 0 else 1 + KeyIndex(entries[1..], k)
  }

  /**
   * `Map.prototype.set`: an existing key keeps its place and takes the new
   * value, every other entry staying as it was; a new key is appended.
   */
  function MapSet<T(==)>(entries: seq<(T, T)>, k: T, v: T): (r: seq<(T, T)>)
    ensures k in Keys(entries) ==> |r| == |entries| && Keys(r) == Keys(entries)
    ensures k in Keys(entries) ==>
      && r[KeyIndex(entries, k)] == (k, v)
      && forall j :: 0 <= j < |r| && j != KeyIndex(entries, k) ==> r[j] == entries[j]
    ensures k !in Keys(entries) ==> r == entries + [(k, v)]
  {
    if k in Keys(entries) then entries[KeyIndex(entries, k) := (k, v)] else entries + [(k, v)]
  }

  /** `new Map(pairs)`: the pairs set one after the other. */
  function FromPairs<T(==)>(pairs: seq<(T, T)>): seq<(T, T)>
  {
    if pairs == [] then []
    else MapSet(FromPairs(pairs[..|pairs| - 1]), pairs[|pairs| - 1].0, pairs[|pairs| - 1].1)
  }

  function KeyedPairs<T>(k: T, items: seq<T>): seq<(T, T)>
  {
    seq(|items|, i requires 0 <= i < |items| => (k, items[i]))
  }

  function SelfPairs<T>(items: seq<T>): seq<(T, T)>
  {
    seq(|items|, i requires 0 <= i < |items| => (items[i], items[i]))
  }

  /**
   * `$.mapify(arr, keyBy)`. A falsy `keyBy` is `None`; a non-array or an
   * empty array comes back as it was.
   */
  function Mapify<T(==)>(arr: Input<T>, keyBy: Option<T>): (r: Mapified<T>)
    ensures !arr.Array? || arr.items == [] ==> r == Unchanged(arr)
    ensures arr.Array? && arr.items != [] && keyBy.Some? ==>
      r == JsMap([(keyBy.value, arr.items[|arr.items| - 1])])
    ensures arr.Array? && arr.items != [] && keyBy.None? ==>
      r == JsMap(SelfPairs(Deduplicated(arr.items)))
  {
    if !arr.Array? || |arr.items| == 0 then Unchanged(arr)
    else if keyBy.Some? then
      KeyedMapHoldsLast(keyBy.value, arr.items);
      JsMap(FromPairs(KeyedPairs(keyBy.value, arr.items)))
    else
      SelfMapDeduplicates(arr.items);
      JsMap(FromPairs(SelfPairs(arr.items)))
  }

  /** The items without repeats, each where it first occurs. */
  function Deduplicated<T(==)>(items: seq<T>): (d: seq<T>)
    ensures forall i :: 0 <= i < |d| ==> d[i] in items
    ensures forall i :: 0 <= i < |items| ==> items[i] in d
    ensures forall i, j :: 0 <= i < j < |d| ==> d[i] != d[j]
  {
    if items == [] then []
    else
      var front := Deduplicated(items[..|items| - 1]);
      var last := items[|items| - 1];
      assert items == items[..|items| - 1] + [last];
      if last in front then front else front + [last]
  }

  /** With a key, every entry shares it, so the Map holds one entry: the last item. */
  lemma {:induction false} KeyedMapHoldsLast<T>(k: T, items: seq<T>)
    requires |items| >= 1
    ensures FromPairs(KeyedPairs(k, items)) == [(k, items[|items| - 1])]
    decreases |items|
  {
    var pairs := KeyedPairs(k, items);
    if |items| > 1 {
      var front := items[..|items| - 1];
      assert pairs[..|pairs| - 1] == KeyedPairs(k, front);
      KeyedMapHoldsLast(k, front);
      assert Keys([(k, front[|front| - 1])]) == [k];
    }
  }

  /** Setting a key already present with its own value changes nothing. */
  lemma {:induction false} SelfSetPresent<T>(d: seq<T>, x: T)
    requires x in d
    ensures MapSet(SelfPairs(d), x, x) == SelfPairs(d)
    decreases |d|
  {
    var e := SelfPairs(d);
    if d[0] != x {
      assert e[1..] == SelfPairs(d[1..]);
      assert x in d[1..];
      SelfSetPresent(d[1..], x);
    } else {
      assert e == [(x, x)] + e[1..];
    }
  }

  /** Without a key, the Map holds each distinct item once, mapped to itself, in first-seen order. */
  lemma {:induction false} SelfMapDeduplicates<T>(items: seq<T>)
    ensures FromPairs(SelfPairs(items)) == SelfPairs(Deduplicated(items))
    decreases |items|
  {
    if items != [] {
      var front := items[..|items| - 1];
      var last := items[|items| - 1];
      assert SelfPairs(items)[..|items| - 1] == SelfPairs(front);
      SelfMapDeduplicates(front);
      var d := Deduplicated(front);
      assert Keys(SelfPairs(d)) == d;
      if last in d {
        SelfSetPresent(d, last);
      } else {
        assert SelfPairs(d) + [(last, last)] == SelfPairs(d + [last]);
      }
    }
  }

  // ---------------------------------------------------------------------
  // escapeHtml

  /** `s.replace(/c/g, rep)` for a one-character pattern. */
  function ReplaceAll(s: string, c: char, rep: string): (r: string)
    ensures c !in rep ==> c !in r
  {
    if s == [] then []
    else (if s[0] == c then rep else [s[0]]) + ReplaceAll(s[1..], c, rep)
  }

  /** `escapeHtml`: `&`, then `<`, then `>`, each replaced everywhere. */
  function EscapeHtml(s: string): (r: string)
    ensures '<' !in r && '>' !in r
  {
    var amp := ReplaceAll(s, '&', "&amp;");
    var lt := ReplaceAll(amp, '<', "&lt;");
    ReplaceAllKeepsAbsent(lt, '>', "&gt;", '<');
    ReplaceAll(lt, '>', "&gt;")
  }

  /** Replacing one character never brings in a character that neither the text nor the replacement holds. */
  lemma {:induction false} ReplaceAllKeepsAbsent(s: string, c: char, rep: string, d: char)
    requires d !in s && d !in rep
    ensures d !in ReplaceAll(s, c, rep)
    decreases |s|
  {
    if s != [] {
      assert d != s[0];
      assert d !in s[1..] by { assert forall k :: 0 <= k < |s[1..]| ==> s[1..][k] == s[k + 1]; }
      ReplaceAllKeepsAbsent(s[1..], c, rep, d);
    }
  }

  /** The entity one character escapes to. */
  function EscapeChar(c: char): string
  {
    if c == '&' then "&amp;" else if c == '<' then "&lt;" else if c == '>' then "&gt;" else [c]
  }

  /** Escaping as a single pass over the characters. */
  function EscapeEach(s: string): string
  {
    if s == [] then [] else EscapeChar(s[0]) + EscapeEach(s[1..])
  }

  /** Decoding the three entities; any other character stands for itself. */
  function Unescape(s: string): string
  {
    if s == [] then []
    else if |s| >= 5 && s[..5] == "&amp;" then "&" + Unescape(s[5..])
    else if |s| >= 4 && s[..4] == "&lt;" then "<" + Unescape(s[4..])
    else if |s| >= 4 && s[..4] == "&gt;" then ">" + Unescape(s[4..])
    else [s[0]] + Unescape(s[1..])
  }

  lemma {:induction false} ReplaceAllConcat(a: string, b: string, c: char, rep: string)
    ensures ReplaceAll(a + b, c, rep) == ReplaceAll(a, c, rep) + ReplaceAll(b, c, rep)
    decreases |a|
  {
    if a == [] {
      assert a + b == b;
    } else {
      assert (a + b)[1..] == a[1..] + b;
      ReplaceAllConcat(a[1..], b, c, rep);
    }
  }

  /** The three passes of `escapeHtml` do what one pass over the characters does. */
  lemma {:induction false} EscapeHtmlIsEscapeEach(s: string)
    ensures EscapeHtml(s) == EscapeEach(s)
    decreases |s|
  {
    if s != [] {
      var head := [s[0]];
      assert s == head + s[1..];
      ReplaceAllConcat(head, s[1..], '&', "&amp;");
      var amp1 := ReplaceAll(head, '&', "&amp;");
      var ampRest := ReplaceAll(s[1..], '&', "&amp;");
      ReplaceAllConcat(amp1, ampRest, '<', "&lt;");
      var lt1 := ReplaceAll(amp1, '<', "&lt;");
      var ltRest := ReplaceAll(ampRest, '<', "&lt;");
      ReplaceAllConcat(lt1, ltRest, '>', "&gt;");
      assert ReplaceAll(lt1, '>', "&gt;") == EscapeChar(s[0]) by {
        ReplaceAllSmall(s[0]);
      }
      EscapeHtmlIsEscapeEach(s[1..]);
    }
  }

  /** The three passes on one character. */
  lemma ReplaceAllSmall(c: char)
    ensures ReplaceAll(ReplaceAll(ReplaceAll([c], '&', "&amp;"), '<', "&lt;"), '>', "&gt;") == EscapeChar(c)
  {
    if c == '&' {
      assert ReplaceAll([c], '&', "&amp;") == "&amp;";
      assert ReplaceAll("&amp;", '<', "&lt;") == "&amp;";
      assert ReplaceAll("&amp;", '>', "&gt;") == "&amp;";
    } else if c == '<' {
      assert ReplaceAll([c], '&', "&amp;") == "<";
      assert ReplaceAll("<", '<', "&lt;") == "&lt;";
      assert ReplaceAll("&lt;", '>', "&gt;") == "&lt;";
    } else if c == '>' {
      assert ReplaceAll([c], '<', "&lt;") == ">";
      assert ReplaceAll(">", '>', "&gt;") == "&gt;";
    }
  }

  /** Decoding the entities recovers the original text. */
  lemma {:induction false} UnescapeEscapeHtml(s: string)
    ensures Unescape(EscapeHtml(s)) == s
  {
    EscapeHtmlIsEscapeEach(s);
    UnescapeEscapeEach(s);
  }

  lemma {:induction false} UnescapeEscapeEach(s: string)
    ensures Unescape(EscapeEach(s)) == s
    decreases |s|
  {
    if s != [] {
      UnescapeEscapeEach(s[1..]);
      UnescapeEscapeChar(s[0], EscapeEach(s[1..]));
      assert s == [s[0]] + s[1..];
    }
  }

  /** Decoding an escaped character followed by more text. */
  lemma UnescapeEscapeChar(c: char, rest: string)
    ensures Unescape(EscapeChar(c) + rest) == [c] + Unescape(rest)
  {
    if c == '&' {
      UnescapeEntity("&amp;", rest);
    } else if c == '<' {
      UnescapeEntity("&lt;", rest);
    } else if c == '>' {
      UnescapeEntity("&gt;", rest);
    } else {
      var t := [c] + rest;
      assert t[0] == c && t[1..] == rest;
      assert !(|t| >= 5 && t[..5] == "&amp;") && !(|t| >= 4 && t[..4] == "&lt;") && !(|t| >= 4 && t[..4] == "&gt;") by {
        assert |t| >= 4 ==> t[..4][0] == c;
        assert |t| >= 5 ==> t[..5][0] == c;
      }
    }
  }

  /** One entity at the front decodes to its character. */
  lemma UnescapeEntity(entity: string, rest: string)
    requires entity in {"&amp;", "&lt;", "&gt;"}
    ensures Unescape(entity + rest) ==
      (if entity == "&amp;" then "&" else if entity == "&lt;" then "<" else ">") + Unescape(rest)
  {
    var t := entity + rest;
    assert t[..|entity|] == entity && t[|entity|..] == rest;
    if entity != "&amp;" {
      assert t[1] == entity[1] && entity[1] != 'a';
      assert !(|t| >= 5 && t[..5] == "&amp;") by {
        assert |t| >= 5 ==> t[..5][1] == t[1];
      }
    }
  }
}
