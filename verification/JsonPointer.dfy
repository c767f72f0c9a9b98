/** JSON Pointer references of the decision-limit registry (decision_limits.py),
    against sections 3 and 4 of RFC 6901. */
module JsonPointer {
  import opened Prelude

  datatype Json = Object(fields: map<string, Json>) | Other(text: string)

  // ----------------------------------------------------------------- escaping

  /** Section 3: `~` is written `~0` and `/` is written `~1`. */
  function Escape(key: string): string {
    if key == [] then []
    else (if key[0] == '~' then "~0" else if key[0] == '/' then "~1" else [key[0]]) + Escape(key[1..])
  }

  /** Python's `s.replace(a + b, r)` for a two-character pattern. */
  function Replace(s: string, a: char, b: char, r: char): string {
    if |s| < 2 then s
    else if s[0] == a && s[1] == b then [r] + Replace(s[2..], a, b, r)
    else [s[0]] + Replace(s[1..], a, b, r)
  }

  /** Section 4: `~1` first, then `~0`. */
  function Unescape(part: string): string {
    Replace(Replace(part, '~', '1', '/'), '~', '0', '~')
  }

  function EscapeTildes(key: string): string {
    if key == [] then []
    else (if key[0] == '~' then "~0" else [key[0]]) + EscapeTildes(key[1..])
  }

  lemma ReplaceSkips(c: char, s: string, a: char, b: char, r: char)
    requires c != a
    ensures Replace([c] + s, a, b, r) == [c] + Replace(s, a, b, r)
  {
    assert ([c] + s)[1..] == s;
  }

  lemma ReplaceHits(s: string, a: char, b: char, r: char)
    ensures Replace([a, b] + s, a, b, r) == [r] + Replace(s, a, b, r)
  {
    assert ([a, b] + s)[2..] == s;
  }

  lemma ReplaceMisses(d: char, s: string, a: char, b: char, r: char)
    requires d != a && d != b
    ensures Replace([a, d] + s, a, b, r) == [a, d] + Replace(s, a, b, r)
  {
    assert ([a, d] + s)[1..] == [d] + s;
    ReplaceSkips(d, s, a, b, r);
  }

  lemma {:induction false} FirstPass(key: string)
    ensures Replace(Escape(key), '~', '1', '/') == EscapeTildes(key)
  {
    if key == [] {
    } else {
      FirstPass(key[1..]);
      var rest := Escape(key[1..]);
      if key[0] == '~' {
        ReplaceMisses('0', rest, '~', '1', '/');
      } else if key[0] == '/' {
        ReplaceHits(rest, '~', '1', '/');
      } else {
        ReplaceSkips(key[0], rest, '~', '1', '/');
      }
    }
  }

  lemma {:induction false} SecondPass(key: string)
    ensures Replace(EscapeTildes(key), '~', '0', '~') == key
  {
    if key == [] {
    } else {
      SecondPass(key[1..]);
      var rest := EscapeTildes(key[1..]);
      if key[0] == '~' {
        ReplaceHits(rest, '~', '0', '~');
      } else {
        ReplaceSkips(key[0], rest, '~', '0', '~');
      }
    }
  }

  /** The two ordered replacements undo the escaping of every key. */
  lemma UnescapeEscape(key: string)
    ensures Unescape(Escape(key)) == key
  {
    FirstPass(key);
    SecondPass(key);
  }

  /** Section 3's reference token: no `/`, and `~` only as `~0` or `~1`. */
  predicate WellEscaped(part: string) {
    if part == [] then true
    else if part[0] == '~' then |part| >= 2 && (part[1] == '0' || part[1] == '1') && WellEscaped(part[2..])
    else part[0] != '/' && WellEscaped(part[1..])
  }

  function Decode(part: string): string
    requires WellEscaped(part)
  {
    if part == [] then []
    else if part[0] == '~' then [if part[1] == '0' then '~' else '/'] + Decode(part[2..])
    else [part[0]] + Decode(part[1..])
  }

  lemma {:induction false} EscapeDecode(part: string)
    requires WellEscaped(part)
    ensures Escape(Decode(part)) == part
  {
    if part == [] {
    } else {
      if part[0] == '~' {
        EscapeDecode(part[2..]);
        assert part == part[..2] + part[2..];
      } else {
        EscapeDecode(part[1..]);
      }
    }
  }

  lemma {:induction false} EscapeIsWellEscaped(key: string)
    ensures WellEscaped(Escape(key)) && '/' !in Escape(key)
  {
    if key == [] {
    } else {
      EscapeIsWellEscaped(key[1..]);
      var rest := Escape(key[1..]);
      assert ("~0" + rest)[2..] == rest && ("~1" + rest)[2..] == rest && ([key[0]] + rest)[1..] == rest;
    }
  }

  /** The code decodes any text between slashes; the tokens it decodes without
      loss are exactly the ones section 3 allows. */
  lemma EscapeUnescapeIff(part: string)
    ensures Escape(Unescape(part)) == part <==> WellEscaped(part)
  {
    EscapeIsWellEscaped(Unescape(part));
    if WellEscaped(part) {
      EscapeDecode(part);
      UnescapeEscape(Decode(part));
    }
  }

  // ---------------------------------------------------------------- splitting

  /** Python's `s.split("/")`. */
  function Split(s: string): (parts: seq<string>)
    ensures |parts| >= 1
    ensures forall i :: 0 <= i < |parts| ==> '/' !in parts[i]
  {
    if s == [] then [[]]
    else
      var rest := Split(s[1..]);
      if s[0] == '/' then [[]] + rest
      else [[s[0]] + rest[0]] + rest[1..]
  }

  function Join(parts: seq<string>): string
    requires |parts| >= 1
  {
    if |parts| == 1 then parts[0] else parts[0] + "/" + Join(parts[1..])
  }

  lemma {:induction false} SplitAfter(head: string, tail: string)
    requires '/' !in head
    ensures Split(head + "/" + tail) == [head] + Split(tail)
    ensures Split(head) == [head]
  {
    var s := head + "/" + tail;
    if head == [] {
      assert s[1..] == tail;
    } else {
      assert head == [head[0]] + head[1..];
      assert s[1..] == head[1..] + "/" + tail;
      SplitAfter(head[1..], tail);
    }
  }

  lemma {:induction false} SplitJoin(parts: seq<string>)
    requires |parts| >= 1 && forall i :: 0 <= i < |parts| ==> '/' !in parts[i]
    ensures Split(Join(parts)) == parts
  {
    if |parts| == 1 {
      SplitAfter(parts[0], []);
    } else {
      SplitJoin(parts[1..]);
      SplitAfter(parts[0], Join(parts[1..]));
    }
  }

  lemma {:induction false} JoinSplit(s: string)
    ensures Join(Split(s)) == s
  {
    if s == [] {
    } else {
      JoinSplit(s[1..]);
      var rest := Split(s[1..]);
      var parts := Split(s);
      if s[0] == '/' {
        assert parts[1..] == rest;
      } else if |rest| > 1 {
        assert parts[1..] == rest[1..];
        assert s == [s[0]] + s[1..];
      }
    }
  }

  // ----------------------------------------------------------------- pointers

  function EscapeAll(keys: seq<string>): seq<string> {
    seq(|keys|, i requires 0 <= i < |keys| => Escape(keys[i]))
  }

  function UnescapeAll(parts: seq<string>): seq<string> {
    seq(|parts|, i requires 0 <= i < |parts| => Unescape(parts[i]))
  }

  /** Section 3: every reference token is preceded by `/`. */
  function Pointer(keys: seq<string>): string {
    if keys == [] then [] else "/" + Join(EscapeAll(keys))
  }

  /** The keys the code walks for a pointer it does not refuse. */
  function Tokens(pointer: string): seq<string>
    requires "/" <= pointer
  {
    UnescapeAll(Split(pointer[1..]))
  }

  /** Round trip: a pointer built from keys is walked by those keys. The empty key
      list is the one exception: its pointer has no leading `/` and is refused. */
  lemma TokensOfPointer(keys: seq<string>)
    ensures "/" <= Pointer(keys) <==> keys != []
    ensures keys != [] ==> Tokens(Pointer(keys)) == keys
  {
    if keys != [] {
      var parts := EscapeAll(keys);
      forall i | 0 <= i < |parts| ensures '/' !in parts[i] && Unescape(parts[i]) == keys[i] {
        EscapeIsWellEscaped(keys[i]);
        UnescapeEscape(keys[i]);
      }
      SplitJoin(parts);
      assert Pointer(keys)[1..] == Join(parts);
      assert UnescapeAll(parts) == keys;
    }
  }

  /** A pointer the code accepts is the one RFC 6901 writes for its keys exactly
      when all of its tokens are well escaped. */
  lemma PointerOfTokensIff(pointer: string)
    requires "/" <= pointer
    ensures Pointer(Tokens(pointer)) == pointer
            <==> forall i :: 0 <= i < |Split(pointer[1..])| ==> WellEscaped(Split(pointer[1..])[i])
  {
    var parts := Split(pointer[1..]);
    var escaped := EscapeAll(Tokens(pointer));
    forall i | 0 <= i < |parts|
      ensures escaped[i] == parts[i] <==> WellEscaped(parts[i])
      ensures '/' !in escaped[i]
    {
      EscapeUnescapeIff(parts[i]);
      EscapeIsWellEscaped(Unescape(parts[i]));
    }
    JoinSplit(pointer[1..]);
    SplitJoin(escaped);
    assert pointer == "/" + pointer[1..];
    assert Pointer(Tokens(pointer))[1..] == Join(escaped);
    assert escaped == parts <==> forall i :: 0 <= i < |parts| ==> escaped[i] == parts[i];
  }

  // --------------------------------------------------------------- evaluation

  /** Stepwise lookup; only objects have members. */
  function Lookup(value: Json, keys: seq<string>): Option<Json> {
    if keys == [] then Some(value)
    else if value.Object? && keys[0] in value.fields then Lookup(value.fields[keys[0]], keys[1..])
    else None
  }

  /** Python's `reference.partition("#")`. */
  function Before(s: string): (head: string)
    ensures head <= s
  {
    if s == [] || s[0] == '#' then [] else [s[0]] + Before(s[1..])
  }

  lemma {:induction false} PartitionPoint(file: string, rest: string)
    requires '#' !in file
    ensures Before(file + "#" + rest) == file
    ensures Before(file) == file
  {
    var s := file + "#" + rest;
    if file == [] {
    } else {
      assert file == [file[0]] + file[1..];
      assert s[1..] == file[1..] + "#" + rest;
      PartitionPoint(file[1..], rest);
    }
  }

  lemma {:induction false} BeforeIsPrefix(s: string)
    ensures '#' !in Before(s)
    ensures |Before(s)| < |s| ==> s[|Before(s)|] == '#'
  {
    if s == [] || s[0] == '#' {
    } else {
      BeforeIsPrefix(s[1..]);
    }
  }

  /** The JSON-pointer branch of `_resolve_reference` over the project's parsed
      documents; None where the source raises. */
  method ResolveReference(documents: map<string, Json>, reference: string) returns (value: Option<Json>)
    ensures var file := Before(reference);
            if |file| == |reference| || !("/" <= reference[|file| + 1..]) || file !in documents then value == None
            else value == Lookup(documents[file], Tokens(reference[|file| + 1..]))
  {
    BeforeIsPrefix(reference);
    var file := Before(reference);
    if |file| == |reference| { return None; }
    var pointer := reference[|file| + 1..];
    if !("/" <= pointer) || file !in documents { return None; }
    var parts := Split(pointer[1..]);
    var current := documents[file];
    ghost var keys := Tokens(pointer);
    for i := 0 to |parts|
      invariant Lookup(documents[file], keys) == Lookup(current, keys[i..])
    {
      var part := Unescape(parts[i]);
      assert part == keys[i..][0];
      assert keys[i..][1..] == keys[i + 1..];
      if !current.Object? || part !in current.fields { return None; }
      current := current.fields[part];
    }
    return Some(current);
  }

  /** For a named document and any keys at all, resolving the written reference is
      stepwise lookup, except that the whole document cannot be named. */
  method ResolveWritten(documents: map<string, Json>, file: string, keys: seq<string>) returns (value: Option<Json>)
    requires file in documents && '#' !in file
    ensures value == if keys == [] then None else Lookup(documents[file], keys)
  {
    PartitionPoint(file, Pointer(keys));
    TokensOfPointer(keys);
    var reference := file + "#" + Pointer(keys);
    assert reference[|file| + 1..] == Pointer(keys);
    value := ResolveReference(documents, reference);
  }
}
