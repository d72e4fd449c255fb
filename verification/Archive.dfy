/** Rewriting the workbook archive around one bundle part. */
module Archive {
  import opened Wrappers
  import opened Bytes
  import ContentTypes

  const BUNDLE_PART := "customXml/xlpodBundle.json"
  const CONTENT_TYPES := "[Content_Types].xml"

  /** The attributes an entry carries along: those it had, or those of a new deflated entry. */
  datatype Info = Original(attributes: nat) | NewDeflated

  datatype Entry = Entry(name: string, info: Info, data: seq<Byte>)

  type Zip = seq<Entry>

  /** Reading by name: the last entry of that name. */
  function Read(z: Zip, name: string): Option<seq<Byte>> {
    if z == [] then None
    else if z[|z| - 1].name == name then Some(z[|z| - 1].data)
    else Read(z[..|z| - 1], name)
  }

  predicate Has(z: Zip, name: string) {
    exists i :: 0 <= i < |z| && z[i].name == name
  }

  lemma {:induction false} ReadIffHas(z: Zip, name: string)
    ensures Read(z, name).Some? <==> Has(z, name)
  {
    if z != [] {
      var n := |z| - 1;
      ReadIffHas(z[..n], name);
      if Has(z, name) && z[n].name != name {
        var i :| 0 <= i < |z| && z[i].name == name;
        assert z[..n][i].name == name;
      }
      if Has(z[..n], name) {
        var i :| 0 <= i < n && z[..n][i].name == name;
        assert z[i].name == name;
      }
    }
  }

  /** What the rewrite stores under a name: the new bundle, the patched registry, or the old bytes. */
  function NewData(z: Zip, wrapped: seq<Byte>, name: string): Option<seq<Byte>> {
    if name == BUNDLE_PART then Some(wrapped)
    else
      match Read(z, name)
      case None => None
      case Some(data) => if name == CONTENT_TYPES then ContentTypes.Patch(data) else Some(data)
  }

  /** The entries rewritten so far, in order; `None` if the registry part is not UTF-8. */
  function Items(z: Zip, wrapped: seq<Byte>, n: nat): Option<Zip>
    requires n <= |z|
  {
    if n == 0 then Some([])
    else
      match Items(z, wrapped, n - 1)
      case None => None
      case Some(items) =>
        match NewData(z, wrapped, z[n - 1].name)
        case None => None
        case Some(data) => Some(items + [Entry(z[n - 1].name, z[n - 1].info, data)])
  }

  function Rewrite(z: Zip, wrapped: seq<Byte>): Option<Zip> {
    match Items(z, wrapped, |z|)
    case None => None
    case Some(items) =>
      if Has(z, BUNDLE_PART) then Some(items) else Some(items + [Entry(BUNDLE_PART, NewDeflated, wrapped)])
  }

  /** A workbook file on disk; `None` if it is not a zip archive. */
  class XlsxFile {
    var zip: Option<Zip>

    constructor (zip: Option<Zip>)
      ensures this.zip == zip
    {
      this.zip := zip;
    }

    /** The archive part of the writer: read every entry, replace or append the bundle, and only
        then put the new archive in the old one's place. */
    method Replace(wrapped: seq<Byte>) returns (done: bool)
      modifies this
      ensures done <==> old(zip).Some? && Rewrite(old(zip).value, wrapped).Some?
      ensures zip == if done then Rewrite(old(zip).value, wrapped) else old(zip)
    {
      if zip.None? {
        return false;
      }
      var z := zip.value;
      var items: Zip := [];
      var replaced := false;
      for i := 0 to |z|
        invariant zip == old(zip) && Items(z, wrapped, i) == Some(items)
        invariant replaced <==> exists j :: 0 <= j < i && z[j].name == BUNDLE_PART
      {
        var info := z[i];
        ReadIffHas(z, info.name);
        var data := Read(z, info.name).value;
        if info.name == BUNDLE_PART {
          items := items + [Entry(info.name, info.info, wrapped)];
          replaced := true;
        } else if info.name == CONTENT_TYPES {
          var patched := ContentTypes.Patch(data);
          if patched.None? {
            Stuck(z, wrapped, i + 1, |z|);
            return false;
          }
          items := items + [Entry(info.name, info.info, patched.value)];
        } else {
          items := items + [Entry(info.name, info.info, data)];
        }
      }
      if !replaced {
        items := items + [Entry(BUNDLE_PART, NewDeflated, wrapped)];
      }
      zip := Some(items);
      return true;
    }
  }

  lemma {:induction false} Stuck(z: Zip, wrapped: seq<Byte>, n: nat, m: nat)
    requires n <= m <= |z| && Items(z, wrapped, n).None?
    ensures Items(z, wrapped, m).None?
  {
    if n < m {
      Stuck(z, wrapped, n, m - 1);
    }
  }

  // ---- Laws -----------------------------------------------------------------------------------------

  lemma {:induction false} ItemsAre(z: Zip, wrapped: seq<Byte>, n: nat)
    requires n <= |z| && Items(z, wrapped, n).Some?
    ensures var items := Items(z, wrapped, n).value;
      |items| == n && forall i :: 0 <= i < n ==>
        items[i].name == z[i].name && items[i].info == z[i].info
          && NewData(z, wrapped, z[i].name) == Some(items[i].data)
  {
    if n > 0 {
      ItemsAre(z, wrapped, n - 1);
    }
  }

  predicate DistinctNames(z: Zip) {
    forall i, j :: 0 <= i < j < |z| ==> z[i].name != z[j].name
  }

  lemma {:induction false} ReadOfDistinct(z: Zip, i: nat)
    requires DistinctNames(z) && i < |z|
    ensures Read(z, z[i].name) == Some(z[i].data)
  {
    var n := |z| - 1;
    if i < n {
      assert z[..n][i] == z[i];
      ReadOfDistinct(z[..n], i);
    }
  }

  /** Every old entry keeps its place, its name and its attributes, and all but the bundle and the
      registry keep their bytes; at most one entry is new, the bundle, at the end. */
  lemma RewriteKeepsTheRest(z: Zip, wrapped: seq<Byte>)
    requires Rewrite(z, wrapped).Some? && DistinctNames(z)
    ensures var out := Rewrite(z, wrapped).value;
      && |out| == |z| + (if Has(z, BUNDLE_PART) then 0 else 1)
      && (forall i :: 0 <= i < |z| ==> out[i].name == z[i].name && out[i].info == z[i].info)
      && (forall i :: 0 <= i < |z| && z[i].name != BUNDLE_PART && z[i].name != CONTENT_TYPES ==>
          out[i].data == z[i].data)
      && (!Has(z, BUNDLE_PART) ==> out[|z|] == Entry("customXml/xlpodBundle.json", NewDeflated, wrapped))
      && DistinctNames(out)
      && (exists i :: 0 <= i < |out| && out[i].name == BUNDLE_PART && out[i].data == wrapped)
  {
    ItemsAre(z, wrapped, |z|);
    var out := Rewrite(z, wrapped).value;
    forall i | 0 <= i < |z| && z[i].name != BUNDLE_PART && z[i].name != CONTENT_TYPES ensures out[i].data == z[i].data {
      ReadOfDistinct(z, i);
    }
    if Has(z, BUNDLE_PART) {
      var i :| 0 <= i < |z| && z[i].name == BUNDLE_PART;
      assert out[i].name == BUNDLE_PART;
    } else {
      assert out[|z|].name == BUNDLE_PART;
    }
  }

  /** In a rewritten archive the bytes under a name are what the rewrite stores under it. */
  lemma {:induction false} ReadOfItems(z: Zip, wrapped: seq<Byte>, n: nat, name: string)
    requires n <= |z| && Items(z, wrapped, n).Some?
    ensures Read(Items(z, wrapped, n).value, name)
         == if exists i :: 0 <= i < n && z[i].name == name then NewData(z, wrapped, name) else None
  {
    if n > 0 {
      ReadOfItems(z, wrapped, n - 1, name);
      var items := Items(z, wrapped, n).value;
      assert items[..|items| - 1] == Items(z, wrapped, n - 1).value;
    }
  }

  /** Afterwards the bundle's part holds what was written, the registry its patched bytes, and every other
      part what it held. */
  lemma ReadOfRewrite(z: Zip, wrapped: seq<Byte>, name: string)
    requires Rewrite(z, wrapped).Some?
    ensures Read(Rewrite(z, wrapped).value, name) == NewData(z, wrapped, name)
    ensures var now, was := Read(Rewrite(z, wrapped).value, name), Read(z, name);
      && (name == "customXml/xlpodBundle.json" ==> now == Some(wrapped))
      && (name == "[Content_Types].xml" ==> now == if was.Some? then ContentTypes.Patch(was.value) else None)
      && (name != "customXml/xlpodBundle.json" && name != "[Content_Types].xml" ==> now == was)
  {
    var items, out := Items(z, wrapped, |z|).value, Rewrite(z, wrapped).value;
    ReadOfItems(z, wrapped, |z|, name);
    ReadIffHas(z, name);
    if !Has(z, BUNDLE_PART) {
      assert out[..|out| - 1] == items;
    }
  }

  /** What the reader finds afterwards is what was written. */
  lemma ReadsBackBundle(z: Zip, wrapped: seq<Byte>)
    requires Rewrite(z, wrapped).Some?
    ensures Read(Rewrite(z, wrapped).value, BUNDLE_PART) == Some(wrapped)
  {
    ReadOfRewrite(z, wrapped, BUNDLE_PART);
  }

  lemma NewDataTwice(z: Zip, p: seq<Byte>, q: seq<Byte>, name: string)
    requires Rewrite(z, p).Some?
    ensures NewData(Rewrite(z, p).value, q, name) == NewData(z, q, name)
  {
    ReadOfRewrite(z, p, name);
    if name == CONTENT_TYPES && Read(z, name).Some? {
      var data := Read(z, name).value;
      if ContentTypes.Patch(data).Some? {
        ContentTypes.PatchIdempotent(data);
      } else {
        RegistryDecodes(z, p, |z|);
      }
    }
  }

  /** A rewrite that succeeded could read the registry part. */
  lemma {:induction false} RegistryDecodes(z: Zip, p: seq<Byte>, n: nat)
    requires n <= |z| && Items(z, p, n).Some?
    ensures forall i :: 0 <= i < n ==> NewData(z, p, z[i].name).Some?
  {
    if n > 0 {
      RegistryDecodes(z, p, n - 1);
    }
  }

  lemma {:induction false} ItemsTwice(z: Zip, p: seq<Byte>, q: seq<Byte>, n: nat)
    requires Rewrite(z, p).Some? && n <= |z|
    ensures n <= |Rewrite(z, p).value|
    ensures Items(Rewrite(z, p).value, q, n) == Items(z, q, n)
  {
    ItemsAre(z, p, |z|);
    if n > 0 {
      ItemsTwice(z, p, q, n - 1);
      NewDataTwice(z, p, q, z[n - 1].name);
    }
  }

  /** The last write wins absolutely, entry for entry, duplicates of names included. */
  lemma LastWriteWins(z: Zip, p: seq<Byte>, q: seq<Byte>)
    requires Rewrite(z, p).Some?
    ensures Rewrite(Rewrite(z, p).value, q) == Rewrite(z, q)
  {
    var out := Rewrite(z, p).value;
    ItemsAre(z, p, |z|);
    ItemsTwice(z, p, q, |z|);
    BundlePresent(z, p);
    if Has(z, BUNDLE_PART) {
      assert |out| == |z|;
    } else {
      assert out[|z|] == Entry(BUNDLE_PART, NewDeflated, p);
      assert Items(out, q, |z| + 1).Some? <==> Items(z, q, |z|).Some?;
    }
  }

  lemma BundlePresent(z: Zip, p: seq<Byte>)
    requires Rewrite(z, p).Some?
    ensures Has(Rewrite(z, p).value, BUNDLE_PART)
  {
    ReadsBackBundle(z, p);
    ReadIffHas(Rewrite(z, p).value, BUNDLE_PART);
  }

  /** Whether a rewrite succeeds does not depend on what is written, only on the registry part. */
  lemma RewriteFailsIff(z: Zip, wrapped: seq<Byte>)
    ensures Rewrite(z, wrapped).None?
      <==> Read(z, CONTENT_TYPES).Some? && ContentTypes.Patch(Read(z, CONTENT_TYPES).value).None?
  {
    ReadIffHas(z, CONTENT_TYPES);
    if Rewrite(z, wrapped).Some? {
      RegistryDecodes(z, wrapped, |z|);
    } else {
      FailsAtRegistry(z, wrapped, |z|);
    }
  }

  lemma {:induction false} FailsAtRegistry(z: Zip, wrapped: seq<Byte>, n: nat)
    requires n <= |z| && Items(z, wrapped, n).None?
    ensures Read(z, CONTENT_TYPES).Some? && ContentTypes.Patch(Read(z, CONTENT_TYPES).value).None?
  {
    if n > 0 && Items(z, wrapped, n - 1).None? {
      FailsAtRegistry(z, wrapped, n - 1);
    } else {
      ReadIffHas(z, z[n - 1].name);
      assert z[n - 1].name == CONTENT_TYPES;
    }
  }
}
