/** `Data.Select_Assets`: trims the asset list to the range between a start
    symbol and an optional end symbol given as command arguments. */
module AssetSelection {
  import opened Wrappers
  import opened Data
  import Lists

  /** `char.IsWhiteSpace`: the Unicode space, line and paragraph separators,
      U+0009 to U+000D, and U+0085. */
  predicate IsWhiteSpace(c: char)
  {
    c == ' ' || ('\t' <= c <= '\r') || c == '\U{0085}' || c == '\U{00A0}' || c == '\U{1680}'
    || ('\U{2000}' <= c <= '\U{200A}') || c == '\U{2028}' || c == '\U{2029}'
    || c == '\U{202F}' || c == '\U{205F}' || c == '\U{3000}'
  }

  /** Drops leading white space: the result is a suffix of `s`. */
  function TrimStart(s: string): (r: string)
    ensures |r| <= |s| && r == s[|s| - |r|..]
    ensures |r| > 0 ==> !IsWhiteSpace(r[0])
    ensures forall i :: 0 <= i < |s| - |r| ==> IsWhiteSpace(s[i])
  {
    if |s| > 0 && IsWhiteSpace(s[0]) then TrimStart(s[1..]) else s
  }

  /** Drops trailing white space: the result is a prefix of `s`. */
  function TrimEnd(s: string): (r: string)
    ensures |r| <= |s| && r == s[..|r|]
    ensures |r| > 0 ==> !IsWhiteSpace(r[|r| - 1])
    ensures forall i :: |r| <= i < |s| ==> IsWhiteSpace(s[i])
  {
    if |s| > 0 && IsWhiteSpace(s[|s| - 1]) then TrimEnd(s[..|s| - 1]) else s
  }

  /** `string.Trim()`: the input with its leading and trailing white space
      removed and nothing else. */
  function Trim(s: string): (r: string)
    ensures |r| > 0 ==> !IsWhiteSpace(r[0]) && !IsWhiteSpace(r[|r| - 1])
    ensures exists lo, hi :: TrimmedAround(s, r, lo, hi)
  {
    TrimWindow(s);
    TrimEnd(TrimStart(s))
  }

  /** `r` is `s[lo..hi]` and everything around it is white space. */
  predicate TrimmedAround(s: string, r: string, lo: int, hi: int)
  {
    0 <= lo <= hi <= |s| && r == s[lo..hi]
    && (forall i :: 0 <= i < lo ==> IsWhiteSpace(s[i]))
    && (forall i :: hi <= i < |s| ==> IsWhiteSpace(s[i]))
  }

  /** Where the two halves of a trim cut the input. */
  lemma TrimWindow(s: string)
    ensures exists lo, hi :: TrimmedAround(s, TrimEnd(TrimStart(s)), lo, hi)
  {
    var t := TrimStart(s);
    var r := TrimEnd(t);
    var lo := |s| - |t|;
    assert t == s[lo..];
    assert r == t[..|r|];
    forall i | lo + |r| <= i < |s|
      ensures IsWhiteSpace(s[i])
    {
      assert s[i] == t[i - lo];
    }
    assert TrimmedAround(s, r, lo, lo + |r|);
  }

  /** Upper-casing of one character (ASCII letters only). */
  function UpperChar(c: char): char
  {
    if 'a' <= c <= 'z' then (c as int - 32) as char else c
  }

  /** `string.ToUpper()`: no lower-case letter survives, each one becomes
      its upper-case partner, and every other character is left alone. */
  function ToUpper(s: string): (r: string)
    ensures |r| == |s|
    ensures forall i :: 0 <= i < |r| ==> !('a' <= r[i] <= 'z')
    ensures forall i :: 0 <= i < |s| && 'a' <= s[i] <= 'z' ==> 'A' <= r[i] <= 'Z' && r[i] as int - 'A' as int == s[i] as int - 'a' as int
    ensures forall i :: 0 <= i < |s| && !('a' <= s[i] <= 'z') ==> r[i] == s[i]
  {
    seq(|s|, i requires 0 <= i < |s| => UpperChar(s[i]))
  }

  /** The form an argument takes before it is compared with a symbol. */
  function Normalize(arg: string): string
  {
    ToUpper(Trim(arg))
  }

  /** A string with no white space at either end is its own trim. */
  lemma TrimmedIsFixed(s: string)
    requires |s| > 0 ==> !IsWhiteSpace(s[0]) && !IsWhiteSpace(s[|s| - 1])
    ensures Trim(s) == s
  {
  }

  /** Normalizing an already normalized argument changes nothing. */
  lemma NormalizeIdempotent(arg: string)
    ensures Normalize(Normalize(arg)) == Normalize(arg)
  {
    var t := Trim(arg);
    var u := ToUpper(t);
    UpperKeepsEnds(t);
    TrimmedIsFixed(u);
    UpperIsFixed(u);
  }

  /** Upper-casing never puts white space at either end of a string. */
  lemma UpperKeepsEnds(t: string)
    requires |t| > 0 ==> !IsWhiteSpace(t[0]) && !IsWhiteSpace(t[|t| - 1])
    ensures var u := ToUpper(t); |u| > 0 ==> !IsWhiteSpace(u[0]) && !IsWhiteSpace(u[|u| - 1])
  {
  }

  /** A string without lower-case letters is its own upper-casing. */
  lemma UpperIsFixed(u: string)
    requires forall i :: 0 <= i < |u| ==> !('a' <= u[i] <= 'z')
    ensures ToUpper(u) == u
  {
    var v := ToUpper(u);
    assert forall i :: 0 <= i < |u| ==> v[i] == u[i];
  }

  /** `List<Asset>.IndexOf` of the first asset with the given symbol, -1 when
      there is none (the stand-in `new Asset()` is never in the list). */
  function IndexOfSymbol(assets: seq<Asset>, symbol: string): (r: int)
    ensures -1 <= r < |assets|
    ensures r >= 0 ==> assets[r].symbol == symbol
    ensures r >= 0 ==> forall j :: 0 <= j < r ==> assets[j].symbol != symbol
    ensures r == -1 <==> forall j :: 0 <= j < |assets| ==> assets[j].symbol != symbol
  {
    match Lists.FirstIndex(assets, (a: Asset) => a.symbol == symbol)
    case Some(i) => i
    case None => -1
  }

  /** `i` is the index of the first asset carrying `symbol`. */
  predicate FirstMatch(assets: seq<Asset>, symbol: string, i: int)
  {
    0 <= i < |assets| && assets[i].symbol == symbol
    && forall j :: 0 <= j < i ==> assets[j].symbol != symbol
  }

  /** No asset carries `symbol`. */
  predicate NoMatch(assets: seq<Asset>, symbol: string)
  {
    forall j :: 0 <= j < |assets| ==> assets[j].symbol != symbol
  }

  /** The identified first match is the one IndexOf reports. */
  lemma FirstMatchIsIndex(assets: seq<Asset>, symbol: string, i: int)
    requires FirstMatch(assets, symbol, i)
    ensures IndexOfSymbol(assets, symbol) == i
  {
  }

  /** The two `RemoveRange` calls, given the start index `si` and the end
      index `endAt` (each -1 when not found): drop the first `si` elements
      when si > 0, then keep the first `ei = endAt - si + 1` when ei > 0.
      None is the ArgumentException of the second call when `ei` exceeds
      the remaining length. */
  function Trimmed(assets: seq<Asset>, si: int, endAt: int): Option<seq<Asset>>
    requires -1 <= si < |assets| && -1 <= endAt < |assets|
  {
    var ei := endAt - si + 1;
    var rest := if si > 0 then assets[si..] else assets;
    if ei <= 0 then Some(rest)
    else if ei <= |rest| then Some(rest[..ei])
    else None
  }

  /** The trimming for an already normalized start symbol and optional
      end symbol. */
  function SelectBySymbols(assets: seq<Asset>, start: string, end: Option<string>): Option<seq<Asset>>
  {
    var si := IndexOfSymbol(assets, start);
    var endAt := match end case Some(e) => IndexOfSymbol(assets, e) case None => -1;
    Trimmed(assets, si, endAt)
  }

  /** `Select_Assets`: no arguments leave the list as it is; otherwise the
      first argument names the start symbol and the optional second one the
      end symbol, each normalized before comparison. */
  function SelectAssets(assets: seq<Asset>, args: seq<string>): (r: Option<seq<Asset>>)
    ensures |args| == 0 ==> r == Some(assets)
  {
    if |args| == 0 then Some(assets)
    else SelectBySymbols(assets, Normalize(args[0]), if |args| > 1 then Some(Normalize(args[1])) else None)
  }

  /** Both symbols found, the end not before the start: the inclusive range. */
  lemma SelectBetween(assets: seq<Asset>, start: string, end: string, si: int, ej: int)
    requires FirstMatch(assets, start, si)
    requires FirstMatch(assets, end, ej)
    requires si <= ej
    ensures SelectBySymbols(assets, start, Some(end)) == Some(assets[si..ej + 1])
  {
    FirstMatchIsIndex(assets, start, si);
    FirstMatchIsIndex(assets, end, ej);
    assert assets[si..][..ej - si + 1] == assets[si..ej + 1];
  }

  /** The start found, and either no end symbol, an unknown one or one before
      the start: everything from the start onwards. */
  lemma SelectFrom(assets: seq<Asset>, start: string, end: Option<string>, si: int)
    requires FirstMatch(assets, start, si)
    requires end.Some? ==> IndexOfSymbol(assets, end.value) < si
    ensures SelectBySymbols(assets, start, end) == Some(assets[si..])
  {
    FirstMatchIsIndex(assets, start, si);
  }

  /** An unknown start symbol leaves `si` at -1, so `ei` counts one element
      too many: with no usable end symbol only the first asset is kept (and
      an empty list throws); with an end symbol found at `ej` the first
      `ej + 2` assets are kept, which throws when the end is the last asset. */
  lemma SelectUnknownStart(assets: seq<Asset>, start: string, end: Option<string>, endAt: int)
    requires NoMatch(assets, start)
    requires endAt == match end case Some(e) => IndexOfSymbol(assets, e) case None => -1
    ensures SelectBySymbols(assets, start, end) == if endAt + 2 <= |assets| then Some(assets[..endAt + 2]) else None
  {
  }

  /** Only an unknown start symbol can make the trimming throw. */
  lemma SelectFailsOnlyOnUnknownStart(assets: seq<Asset>, start: string, end: Option<string>)
    ensures SelectBySymbols(assets, start, end).None? ==> NoMatch(assets, start)
  {
  }

  /** A successful trim is one contiguous run of the list. */
  lemma TrimmedIsWindow(assets: seq<Asset>, si: int, endAt: int) returns (lo: nat, hi: nat)
    requires -1 <= si < |assets| && -1 <= endAt < |assets|
    requires Trimmed(assets, si, endAt).Some?
    ensures lo <= hi <= |assets|
    ensures Trimmed(assets, si, endAt).value == assets[lo..hi]
  {
    var ei := endAt - si + 1;
    lo := if si > 0 then si else 0;
    hi := if ei <= 0 then |assets| else lo + ei;
    assert ei > 0 ==> assets[lo..][..ei] == assets[lo..hi];
  }

  /** Whatever the two symbols, a successful selection is one contiguous
      run of the list. */
  lemma SelectBySymbolsIsWindow(assets: seq<Asset>, start: string, end: Option<string>) returns (lo: nat, hi: nat)
    ensures lo <= hi <= |assets|
    ensures SelectBySymbols(assets, start, end).Some? ==> SelectBySymbols(assets, start, end).value == assets[lo..hi]
  {
    var endAt := match end case Some(e) => IndexOfSymbol(assets, e) case None => -1;
    if Trimmed(assets, IndexOfSymbol(assets, start), endAt).Some? {
      lo, hi := TrimmedIsWindow(assets, IndexOfSymbol(assets, start), endAt);
    } else {
      lo, hi := 0, 0;
    }
  }

  /** Whatever the arguments, a successful selection is one contiguous run
      of the list, in the list's order. */
  lemma SelectIsWindow(assets: seq<Asset>, args: seq<string>) returns (lo: nat, hi: nat)
    ensures lo <= hi <= |assets|
    ensures SelectAssets(assets, args).Some? ==> SelectAssets(assets, args).value == assets[lo..hi]
  {
    if |args| == 0 {
      lo, hi := 0, |assets|;
    } else {
      var end := if |args| > 1 then Some(Normalize(args[1])) else None;
      lo, hi := SelectBySymbolsIsWindow(assets, Normalize(args[0]), end);
    }
  }
}
