/**
 * The textual form of a contact: `"<label>: <kind>"`, where an address
 * renders its chain of locations from the innermost outwards, joined by
 * `", "`, and an email address or a phone number renders as itself.
 */
module Contacts {
  import opened Wrappers

  /** A place, optionally inside a larger one that it owns. */
  datatype Location = Location(name: string, outer: Option<Location>)

  /** How to reach a contact. */
  datatype ContactKind = Address(location: Location) | Email(email: string) | Phone(phone: string)

  /** A labelled way of reaching someone. */
  datatype Contact = Contact(kind: ContactKind, labelText: string)

  /** The number of locations in the chain that starts at `loc`. */
  function Depth(loc: Location): (n: nat)
    ensures n >= 1
  {
    match loc.outer
    case None => 1
    case Some(outer) => 1 + Depth(outer)
  }

  /** The location `k` steps outward from `loc`, if the chain is that long. */
  function Ancestor(loc: Location, k: nat): (r: Option<Location>)
  {
    if k == 0 then Some(loc)
    else match loc.outer
      case None => None
      case Some(outer) => Ancestor(outer, k - 1)
  }

  /** The outermost location of the chain. */
  function Root(loc: Location): (r: Location)
    ensures r.outer.None?
  {
    match loc.outer
    case None => loc
    case Some(outer) => Root(outer)
  }

  /** The names along the chain, innermost first. */
  function Names(loc: Location): (names: seq<string>)
    ensures |names| == Depth(loc)
    ensures names[0] == loc.name
  {
    match loc.outer
    case None => [loc.name]
    case Some(outer) => [loc.name] + Names(outer)
  }

  /** `parts` with `sep` between each two neighbours. */
  function Join(parts: seq<string>, sep: string): (s: string)
  {
    if |parts| == 0 then ""
    else if |parts| == 1 then parts[0]
    else parts[0] + sep + Join(parts[1..], sep)
  }

  /**
   * The text of a location: the names of its chain, innermost first,
   * joined by `", "`, with nothing after the outermost one.
   */
  function RenderLocation(loc: Location): (s: string)
    ensures s == Join(Names(loc), ", ")
  {
    match loc.outer
    case None => loc.name
    case Some(outer) =>
      assert Names(loc)[1..] == Names(outer);
      loc.name + ", " + RenderLocation(outer)
  }

  /** The text of a contact kind. */
  function RenderKind(kind: ContactKind): (s: string)
    ensures kind.Address? ==> s == Join(Names(kind.location), ", ")
    ensures kind.Email? ==> s == kind.email
    ensures kind.Phone? ==> s == kind.phone
  {
    match kind
    case Address(location) => RenderLocation(location)
    case Email(email) => email
    case Phone(phone) => phone
  }

  /** The text of a contact. */
  function RenderContact(c: Contact): (s: string)
    ensures |s| == |c.labelText| + 2 + |RenderKind(c.kind)|
    ensures s[..|c.labelText|] == c.labelText && s[|c.labelText|..|c.labelText| + 2] == ": "
    ensures s[|c.labelText| + 2..] == RenderKind(c.kind)
  {
    c.labelText + ": " + RenderKind(c.kind)
  }

  // ---------------------------------------------------------------------
  // The location chain

  /** The chain is finite: exactly `Depth(loc)` locations, the last of them the root. */
  lemma {:induction false} AncestorsEndAtDepth(loc: Location, k: nat)
    ensures Ancestor(loc, k).Some? <==> k < Depth(loc)
    ensures k == Depth(loc) - 1 ==> Ancestor(loc, k) == Some(Root(loc))
  {
    if k > 0 {
      match loc.outer
      case None =>
      case Some(outer) => AncestorsEndAtDepth(outer, k - 1);
    }
  }

  /** The `k`-th name is that of the location `k` steps outward. */
  lemma {:induction false} NamesFollowTheChain(loc: Location, k: nat)
    requires k < Depth(loc)
    ensures Ancestor(loc, k).Some? && Names(loc)[k] == Ancestor(loc, k).value.name
  {
    if k > 0 {
      match loc.outer
      case Some(outer) => NamesFollowTheChain(outer, k - 1);
    }
  }

  /**
   * The text of a location begins with its own name and ends with the
   * root's name; there is no separator after the root.
   */
  lemma {:induction false} RenderLocationBounds(loc: Location)
    ensures |loc.name| <= |RenderLocation(loc)| && RenderLocation(loc)[..|loc.name|] == loc.name
    ensures var s, r := RenderLocation(loc), Root(loc).name;
      |r| <= |s| && s[|s| - |r|..] == r
  {
    match loc.outer
    case None =>
    case Some(outer) =>
      RenderLocationBounds(outer);
      var s, t, r := RenderLocation(loc), RenderLocation(outer), Root(loc).name;
      assert s == loc.name + ", " + t;
      assert s[|s| - |r|..] == t[|t| - |r|..];
  }

  /** The length of an address: all its names and a two-character separator between each two. */
  lemma {:induction false} RenderLocationLength(loc: Location)
    ensures |RenderLocation(loc)| == NamesLength(Names(loc)) + 2 * (Depth(loc) - 1)
  {
    match loc.outer
    case None =>
    case Some(outer) =>
      RenderLocationLength(outer);
      assert Names(loc) == [loc.name] + Names(outer);
      assert ([loc.name] + Names(outer))[1..] == Names(outer);
  }

  /** The total length of `names`. */
  function NamesLength(names: seq<string>): (n: nat)
  {
    if names == [] then 0 else |names[0]| + NamesLength(names[1..])
  }

  // ---------------------------------------------------------------------
  // Reading the label back

  /** The position of the first `ch` in `s`, if any. */
  function IndexOf(s: string, ch: char): (r: Option<nat>)
    ensures r.Some? ==> r.value < |s| && s[r.value] == ch && ch !in s[..r.value]
    ensures r.None? ==> ch !in s
  {
    if s == [] then None
    else if s[0] == ch then Some(0)
    else match IndexOf(s[1..], ch)
      case None => None
      case Some(i) => assert s[..i + 1] == [s[0]] + s[1..][..i]; Some(i + 1)
  }

  /** Split a rendered contact into its label and the text of its kind. */
  function SplitContact(s: string): (r: Option<(string, string)>)
  {
    match IndexOf(s, ':')
    case None => None
    case Some(i) =>
      if i + 2 <= |s| && s[i + 1] == ' ' then Some((s[..i], s[i + 2..])) else None
  }

  /** A label without a colon can be read back from the rendered contact, and so can the kind's text. */
  lemma RenderContactSplits(c: Contact)
    requires ':' !in c.labelText
    ensures SplitContact(RenderContact(c)) == Some((c.labelText, RenderKind(c.kind)))
  {
    var s := RenderContact(c);
    var n := |c.labelText|;
    assert s[n] == ':' && s[..n] == c.labelText;
    assert forall k :: 0 <= k < n ==> s[k] == c.labelText[k];
    var i := IndexOf(s, ':');
    assert i.Some? && i.value <= n;
    assert i.value == n;
  }

  // ---------------------------------------------------------------------
  // The documented renderings

  /** The five nested locations of the documented address, "Earth" outermost. */
  const Earth: Location := Location("Earth", None)
  const Usa: Location := Location("USA", Some(Earth))
  const Arizona: Location := Location("Arizona", Some(Usa))
  const Phoenix: Location := Location("Phoenix", Some(Arizona))
  const StreetView: Location := Location("1337 Some Street", Some(Phoenix))

  /** The five-level address renders innermost first, with no separator after "Earth". */
  lemma OfficeAddressRendering()
    ensures RenderContact(Contact(Address(StreetView), "Office"))
      == "Office: " + "1337 Some Street, Phoenix, Arizona, USA, Earth"
    ensures Depth(StreetView) == 5 && Root(StreetView).name == "Earth"
  {
    StreetViewText();
    assert "Office" + ": " == "Office: ";
    assert Depth(Usa) == 2 && Depth(Phoenix) == 4;
  }

  // The documented address text, one level of the chain at a time.

  lemma StreetViewText()
    ensures RenderLocation(StreetView) == "1337 Some Street, Phoenix, Arizona, USA, Earth"
  {
    PhoenixText();
    assert RenderLocation(StreetView) == "1337 Some Street" + ", " + "Phoenix, Arizona, USA, Earth";
  }

  lemma PhoenixText()
    ensures RenderLocation(Phoenix) == "Phoenix, Arizona, USA, Earth"
  {
    ArizonaText();
    assert RenderLocation(Phoenix) == "Phoenix" + ", " + "Arizona, USA, Earth";
  }

  lemma ArizonaText()
    ensures RenderLocation(Arizona) == "Arizona, USA, Earth"
  {
    assert RenderLocation(Usa) == "USA" + ", " + "Earth";
    assert RenderLocation(Arizona) == "Arizona" + ", " + "USA, Earth";
  }

  /** An email contact renders as the bare address. */
  lemma EmailRendering()
    ensures RenderContact(Contact(Email("foo@bar.io"), "Email")) == "Email: foo@bar.io"
  {
  }

  /** A phone contact renders as the bare number. */
  lemma PhoneRendering()
    ensures RenderContact(Contact(Phone("1-603-555-5555"), "Cellphone")) == "Cellphone: 1-603-555-5555"
  {
  }
}
