/** The item editor's save action: the name is trimmed and must not be empty,
    the parsed price must be positive. */
module ItemEdit {
  import opened Wrappers
  import opened Store

  /** The characters `String.prototype.trim` removes that this model knows:
      the ASCII white space, no-break space, byte order mark and the line and
      paragraph separators. */
  predicate IsSpace(c: char)
  {
    c == ' ' || c == '\t' || c == '\n' || c == '\r' || c == '\U{000B}' || c == '\U{000C}'
    || c == '\U{00A0}' || c == '\U{FEFF}' || c == '\U{2028}' || c == '\U{2029}'
  }

  /** `s` without its leading white space. */
  function TrimStart(s: string): (r: string)
    ensures |r| <= |s| && r == s[|s| - |r|..]
    ensures forall k :: 0 <= k < |s| - |r| ==> IsSpace(s[k])
    ensures r == [] || !IsSpace(r[0])
  {
    if s != [] && IsSpace(s[0]) then TrimStart(s[1..]) else s
  }

  /** `s` without its trailing white space. */
  function TrimEnd(s: string): (r: string)
    ensures |r| <= |s| && r == s[..|r|]
    ensures forall k :: |r| <= k < |s| ==> IsSpace(s[k])
    ensures r == [] || !IsSpace(r[|r| - 1])
  {
    if s != [] && IsSpace(s[|s| - 1]) then TrimEnd(s[..|s| - 1]) else s
  }

  /** `s.trim()`. */
  function Trim(s: string): string
  {
    TrimEnd(TrimStart(s))
  }

  /** The trimmed text is the slice of the input starting after its leading
      white space; only white space lies outside it, and it neither starts nor
      ends with white space. */
  lemma TrimSpec(s: string)
    ensures var i, t := |s| - |TrimStart(s)|, Trim(s);
      && i + |t| <= |s| && t == s[i..i + |t|]
      && (forall k :: 0 <= k < i ==> IsSpace(s[k]))
      && (forall k :: i + |t| <= k < |s| ==> IsSpace(s[k]))
      && (t == [] || (!IsSpace(t[0]) && !IsSpace(t[|t| - 1])))
  {
    var u := TrimStart(s);
    var i, t := |s| - |u|, Trim(s);
    assert t == u[..|t|];
    assert t == s[i..i + |t|];
    forall k | i + |t| <= k < |s| ensures IsSpace(s[k]) {
      assert s[k] == u[k - i];
    }
    if t != [] {
      assert t[0] == u[0];
    }
  }

  /** The trimmed text is empty exactly when the input is all white space. */
  lemma TrimEmpty(s: string)
    ensures Trim(s) == [] <==> forall k :: 0 <= k < |s| ==> IsSpace(s[k])
  {
    TrimSpec(s);
    var i, t := |s| - |TrimStart(s)|, Trim(s);
    if t != [] {
      assert s[i] == t[0];
    }
  }

  /** Trimming twice is trimming once. */
  lemma TrimIdempotent(s: string)
    ensures Trim(Trim(s)) == Trim(s)
  {
    var t := Trim(s);
    TrimSpec(s);
    assert TrimStart(t) == t;
    assert TrimEnd(t) == t;
  }

  /** Why the editor refuses to save. */
  datatype EditError = EmptyName | InvalidPrice

  /** `EditItemModal.handleSave`: `price` is the result of `parseFloat` on the
      price field, none standing for NaN; `id` is the edited item's id, none
      when a new item is being added. */
  function ValidateEdit(id: Option<Id>, name: string, price: Option<int>): (r: Result<Item, EditError>)
    ensures r == Err(EmptyName) <==> forall k :: 0 <= k < |name| ==> IsSpace(name[k])
    ensures r == Err(InvalidPrice) <==> Trim(name) != [] && (price.None? || price.value <= 0)
    ensures r.Ok? ==> r.value.id == id && r.value.price > 0 && Some(r.value.price) == price
    ensures r.Ok? ==> r.value.name != [] && Trim(r.value.name) == r.value.name && Trim(name) == r.value.name
  {
    TrimEmpty(name);
    TrimIdempotent(name);
    if Trim(name) == [] then Err(EmptyName)
    else if price.None? || price.value <= 0 then Err(InvalidPrice)
    else Ok(Item(id, Trim(name), price.value))
  }
}
