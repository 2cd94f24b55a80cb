/** Header lists, and the edit the manager makes on them: replace the first of a name. */
module HttpHeaders {

  datatype HeaderName = Connection | ContentLength | ContentType | OtherName(name: string)

  datatype Header = Header(name: HeaderName, value: string)

  /** Removal of the first header of a name, if there is one. */
  function WithoutFirst(headers: seq<Header>, name: HeaderName): seq<Header> {
    if headers == [] then []
    else if headers[0].name == name then headers[1..]
    else [headers[0]] + WithoutFirst(headers[1..], name)
  }

  function Named(headers: seq<Header>, name: HeaderName): nat {
    if headers == [] then 0 else (if headers[0].name == name then 1 else 0) + Named(headers[1..], name)
  }

  /** Only the first header of a name is replaced, so the block ends up with one header of
      that name if and only if it had no second one. */
  lemma {:induction false} ReplacedOnce(headers: seq<Header>, h: Header)
    ensures Named(WithoutFirst(headers, h.name) + [h], h.name) == 1 <==> Named(headers, h.name) <= 1
  {
    NamedWithoutFirst(headers, h.name);
    NamedAppend(WithoutFirst(headers, h.name), h);
  }

  /** Of two headers of a name the second stays. */
  lemma SecondStays(h: Header)
    ensures Named(WithoutFirst([h, h], h.name) + [h], h.name) == 2
  {
    assert WithoutFirst([h, h], h.name) == [h];
    NamedAppend([h], h);
    NamedAppend([], h);
    assert [] + [h] == [h];
  }

  lemma {:induction false} NamedWithoutFirst(headers: seq<Header>, name: HeaderName)
    ensures Named(WithoutFirst(headers, name), name) ==
              (if Named(headers, name) == 0 then 0 else Named(headers, name) - 1)
  {
    if headers != [] && headers[0].name != name {
      NamedWithoutFirst(headers[1..], name);
      assert WithoutFirst(headers, name)[1..] == WithoutFirst(headers[1..], name);
    }
  }

  lemma {:induction false} NamedAppend(headers: seq<Header>, h: Header)
    ensures Named(headers + [h], h.name) == Named(headers, h.name) + 1
  {
    if headers == [] {
      assert (headers + [h])[1..] == [];
    } else {
      NamedAppend(headers[1..], h);
      assert (headers + [h])[1..] == headers[1..] + [h];
    }
  }

  /** The headers of other names, in order. */
  function Except(headers: seq<Header>, name: HeaderName): seq<Header> {
    if headers == [] then []
    else if headers[0].name == name then Except(headers[1..], name)
    else [headers[0]] + Except(headers[1..], name)
  }

  /** Replacing the first header of a name leaves the others as they are, in order. */
  lemma {:induction false} ReplacedOthers(headers: seq<Header>, h: Header)
    ensures Except(WithoutFirst(headers, h.name) + [h], h.name) == Except(headers, h.name)
    ensures var n := Named(headers, h.name);
            Named(WithoutFirst(headers, h.name) + [h], h.name) == if n == 0 then 1 else n
  {
    NamedWithoutFirst(headers, h.name);
    NamedAppend(WithoutFirst(headers, h.name), h);
    ExceptWithoutFirst(headers, h.name);
    ExceptAppend(WithoutFirst(headers, h.name), h);
  }

  lemma {:induction false} ExceptWithoutFirst(headers: seq<Header>, name: HeaderName)
    ensures Except(WithoutFirst(headers, name), name) == Except(headers, name)
  {
    if headers != [] && headers[0].name != name {
      ExceptWithoutFirst(headers[1..], name);
      assert WithoutFirst(headers, name)[1..] == WithoutFirst(headers[1..], name);
    }
  }

  lemma {:induction false} ExceptAppend(headers: seq<Header>, h: Header)
    ensures Except(headers + [h], h.name) == Except(headers, h.name)
  {
    if headers == [] {
      assert (headers + [h])[1..] == [];
    } else {
      ExceptAppend(headers[1..], h);
      assert (headers + [h])[1..] == headers[1..] + [h];
    }
  }

  /** Replacing a name twice: the first replacement goes if there was no second header of the name,
      and stays if there was. */
  lemma {:induction false} ReplacedTwice(headers: seq<Header>, h: Header)
    ensures WithoutFirst(WithoutFirst(headers, h.name) + [h], h.name) ==
              if Named(headers, h.name) <= 1 then WithoutFirst(headers, h.name)
              else WithoutFirst(WithoutFirst(headers, h.name), h.name) + [h]
  {
    NamedWithoutFirst(headers, h.name);
    FirstOfAppended(WithoutFirst(headers, h.name), h);
  }

  lemma {:induction false} FirstOfAppended(headers: seq<Header>, h: Header)
    ensures WithoutFirst(headers + [h], h.name) ==
              if Named(headers, h.name) == 0 then headers else WithoutFirst(headers, h.name) + [h]
  {
    if headers == [] {
      assert (headers + [h])[1..] == [];
    } else {
      FirstOfAppended(headers[1..], h);
      assert (headers + [h])[1..] == headers[1..] + [h];
      if headers[0].name != h.name && Named(headers, h.name) == 0 { assert [headers[0]] + headers[1..] == headers; }
    }
  }

  predicate Has(headers: seq<Header>, name: HeaderName) {
    exists h :: h in headers && h.name == name
  }
}
