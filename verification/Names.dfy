/** Names of neurons: joined namespace parts, type alias and codec name, and what equal names say about them. */
module Names {
  import opened Wrappers

  datatype Namespace = Namespace(parts: seq<string>, delimiter: string) {
    function Path(): string {
      Join(delimiter, parts)
    }

    function WithSuffix(suffix: seq<string>): string {
      Join(delimiter, [Path()] + suffix)
    }
  }

  datatype Neuron = Neuron(typeName: string, namespace: Namespace, codecName: string, alias: Option<string>) {
    /** An absent or empty alias falls back to the name of the type. */
    function TypeNameAlias(): string {
      if alias.Some? && alias.value != "" then alias.value else typeName
    }

    function Name(): string {
      namespace.WithSuffix([TypeNameAlias(), codecName])
    }

    function NameWithoutCodec(): string {
      namespace.WithSuffix([TypeNameAlias()])
    }

    /** The strings the name is meant to be joined from. */
    function Parts(): seq<string> {
      namespace.parts + [TypeNameAlias(), codecName]
    }
  }

  function Join(delimiter: string, parts: seq<string>): string {
    if parts == [] then ""
    else if |parts| == 1 then parts[0]
    else parts[0] + delimiter + Join(delimiter, parts[1..])
  }

  lemma {:induction false} JoinNested(d: string, parts: seq<string>, suffix: seq<string>)
    requires parts != []
    ensures Join(d, [Join(d, parts)] + suffix) == Join(d, parts + suffix)
  {
    if suffix == [] {
      assert [Join(d, parts)] + suffix == [Join(d, parts)];
      assert parts + suffix == parts;
    } else if |parts| == 1 {
      assert [Join(d, parts)] + suffix == parts + suffix;
    } else {
      JoinNested(d, parts[1..], suffix);
      assert (parts + suffix)[1..] == parts[1..] + suffix;
      assert ([Join(d, parts)] + suffix)[1..] == suffix == ([Join(d, parts[1..])] + suffix)[1..];
      var rest := Join(d, suffix);
      assert parts[0] + d + (Join(d, parts[1..]) + d + rest) == (parts[0] + d + Join(d, parts[1..])) + d + rest;
    }
  }

  /** A suffix is one join of all the parts, except that an empty namespace contributes a leading delimiter. */
  lemma WithSuffixIsOneJoin(n: Namespace, suffix: seq<string>)
    ensures n.WithSuffix(suffix) == Join(n.delimiter, n.parts + suffix)
            <==> n.parts != [] || suffix == [] || n.delimiter == ""
  {
    if n.parts == [] {
      assert n.parts + suffix == suffix;
      if suffix == [] {
        assert [n.Path()] + suffix == [""];
      } else {
        assert ([n.Path()] + suffix)[1..] == suffix;
        assert n.WithSuffix(suffix) == "" + n.delimiter + Join(n.delimiter, suffix);
        assert |n.WithSuffix(suffix)| == |n.delimiter| + |Join(n.delimiter, suffix)|;
      }
    } else {
      JoinNested(n.delimiter, n.parts, suffix);
    }
  }

  // ----- Reading a name back

  /** `head` before the pieces `rest`: a delimiter opens a new piece, any other character joins the first. */
  function Attach(c: char, head: char, rest: seq<string>): seq<string>
    requires rest != []
  {
    if head == c then [""] + rest else [[head] + rest[0]] + rest[1..]
  }

  /** The pieces of `s` between occurrences of `c`: the reference for what a joined name can be read back as. */
  function Split(c: char, s: string): (pieces: seq<string>)
    ensures pieces != [] && forall piece :: piece in pieces ==> c !in piece
  {
    if s == "" then [""] else Attach(c, s[0], Split(c, s[1..]))
  }

  /** The pieces of all the parts, in order. */
  function Pieces(c: char, parts: seq<string>): seq<string> {
    if parts == [] then [] else Split(c, parts[0]) + Pieces(c, parts[1..])
  }

  lemma AttachFirst(c: char, head: char, first: seq<string>, second: seq<string>)
    requires first != []
    ensures Attach(c, head, first + second) == Attach(c, head, first) + second
  {
  }

  lemma {:induction false} SplitAtDelimiter(c: char, s: string, t: string)
    ensures Split(c, s + [c] + t) == Split(c, s) + Split(c, t)
  {
    var whole := s + [c] + t;
    if s == "" {
      assert whole[1..] == t;
    } else {
      SplitAtDelimiter(c, s[1..], t);
      assert whole[1..] == s[1..] + [c] + t;
      AttachFirst(c, s[0], Split(c, s[1..]), Split(c, t));
    }
  }

  lemma {:induction false} SplitJoin(c: char, parts: seq<string>)
    requires parts != []
    ensures Split(c, Join([c], parts)) == Pieces(c, parts)
  {
    if |parts| == 1 {
      assert Pieces(c, parts[1..]) == [];
    } else {
      SplitJoin(c, parts[1..]);
      SplitAtDelimiter(c, parts[0], Join([c], parts[1..]));
    }
  }

  lemma {:induction false} JoinSplit(c: char, s: string)
    ensures Join([c], Split(c, s)) == s
  {
    if s != "" {
      JoinSplit(c, s[1..]);
      var rest := Split(c, s[1..]);
      var pieces := Split(c, s);
      if s[0] == c {
        assert pieces[1..] == rest;
      } else {
        assert pieces[1..] == rest[1..];
        assert |rest| == 1 ==> pieces == [[s[0]] + rest[0]];
      }
    }
  }

  ghost predicate Clean(c: char, parts: seq<string>) {
    forall part :: part in parts ==> c !in part
  }

  lemma {:induction false} SplitClean(c: char, s: string)
    requires c !in s
    ensures Split(c, s) == [s]
  {
    if s != "" {
      SplitClean(c, s[1..]);
      assert [s[0]] + s[1..] == s;
    }
  }

  lemma {:induction false} PiecesClean(c: char, parts: seq<string>)
    requires Clean(c, parts)
    ensures Pieces(c, parts) == parts
  {
    if parts != [] {
      SplitClean(c, parts[0]);
      PiecesClean(c, parts[1..]);
    }
  }

  /** Joining is undone by splitting exactly on the parts that have no delimiter in them. */
  lemma JoinReadsBack(c: char, parts: seq<string>)
    requires parts != []
    ensures Split(c, Join([c], parts)) == parts <==> Clean(c, parts)
  {
    if Clean(c, parts) {
      PiecesClean(c, parts);
    }
    SplitJoin(c, parts);
  }

  // ----- Neurons

  /** What a neuron's name can be read back as; an empty namespace reads as one empty part. */
  function Readback(c: char, n: Neuron): seq<string> {
    Pieces(c, (if n.namespace.parts == [] then [""] else []) + n.Parts())
  }

  lemma NameReads(c: char, n: Neuron)
    requires n.namespace.delimiter == [c]
    ensures Split(c, n.Name()) == Readback(c, n)
    ensures Join([c], Readback(c, n)) == n.Name()
  {
    var suffix := [n.TypeNameAlias(), n.codecName];
    if n.namespace.parts == [] {
      SplitJoin(c, [""] + suffix);
      assert [n.namespace.Path()] + suffix == [""] + suffix == [""] + n.Parts();
    } else {
      WithSuffixIsOneJoin(n.namespace, suffix);
      SplitJoin(c, n.Parts());
      assert [] + n.Parts() == n.Parts();
    }
    JoinSplit(c, n.Name());
  }

  /** For all neurons: the names are equal exactly when the parts read back the same. */
  lemma NamesEqualIff(c: char, m: Neuron, n: Neuron)
    requires m.namespace.delimiter == n.namespace.delimiter == [c]
    ensures m.Name() == n.Name() <==> Readback(c, m) == Readback(c, n)
  {
    NameReads(c, m);
    NameReads(c, n);
  }

  /** Without delimiters inside the parts and with non-empty namespaces, the name is the neuron's identity. */
  lemma NamesIdentify(c: char, m: Neuron, n: Neuron)
    requires m.namespace.delimiter == n.namespace.delimiter == [c]
    requires m.namespace.parts != [] && n.namespace.parts != []
    requires Clean(c, m.Parts()) && Clean(c, n.Parts())
    ensures m.Name() == n.Name()
            <==> (&& m.namespace.parts == n.namespace.parts
                  && m.TypeNameAlias() == n.TypeNameAlias()
                  && m.codecName == n.codecName)
  {
    NamesEqualIff(c, m, n);
    PiecesClean(c, m.Parts());
    PiecesClean(c, n.Parts());
    assert [] + m.Parts() == m.Parts() && [] + n.Parts() == n.Parts();
    if m.Parts() == n.Parts() {
      var k := |m.namespace.parts|;
      assert m.namespace.parts == m.Parts()[..k] == n.Parts()[..k] == n.namespace.parts;
      assert m.TypeNameAlias() == m.Parts()[k] && m.codecName == m.Parts()[k + 1];
      assert n.TypeNameAlias() == n.Parts()[k] && n.codecName == n.Parts()[k + 1];
    }
  }

  /** What can be read back then: the namespace, the alias or without one the name of the type, and the codec. */
  lemma NameShows(c: char, n: Neuron)
    requires n.namespace.delimiter == [c] && n.namespace.parts != [] && Clean(c, n.Parts())
    ensures n.alias.Some? && n.alias.value != "" ==>
              Split(c, n.Name()) == n.namespace.parts + [n.alias.value, n.codecName]
    ensures n.alias == None || n.alias == Some("") ==>
              Split(c, n.Name()) == n.namespace.parts + [n.typeName, n.codecName]
  {
    NameReads(c, n);
    PiecesClean(c, n.Parts());
    assert [] + n.Parts() == n.Parts();
  }

  lemma JoinTwo(d: string, first: string, second: string)
    ensures Join(d, [first, second]) == first + d + second
  {
    assert [first, second][1..] == [second] && Join(d, [second]) == second;
  }

  /** The codec comes last: it is appended to the name without it. */
  lemma CodecIsAppended(n: Neuron)
    ensures n.Name() == n.NameWithoutCodec() + n.namespace.delimiter + n.codecName
  {
    var d, path, shown := n.namespace.delimiter, n.namespace.Path(), n.TypeNameAlias();
    JoinTwo(d, path, shown);
    JoinTwo(d, shown, n.codecName);
    assert [path] + [shown] == [path, shown];
    assert ([path] + [shown, n.codecName])[1..] == [shown, n.codecName];
    assert path + d + (shown + d + n.codecName) == (path + d + shown) + d + n.codecName;
  }

  /** Both conditions are needed: a delimiter inside a part, or an empty namespace, makes different neurons equal. */
  lemma NamesCollide(typeName: string, codecName: string)
    ensures var m := Neuron(typeName, Namespace(["a.b"], "."), codecName, None);
            var n := Neuron(typeName, Namespace(["a", "b"], "."), codecName, None);
            m.Name() == n.Name() && m.namespace.parts != n.namespace.parts
    ensures var m := Neuron(typeName, Namespace([], "."), codecName, None);
            var n := Neuron(typeName, Namespace([""], "."), codecName, None);
            m.Name() == n.Name() && m.namespace.parts != n.namespace.parts
  {
  }
}
