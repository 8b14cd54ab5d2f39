/** The closed set of size labels a folder search accepts, and its validator. */
module FileSizes {
  import opened Wrappers
  import opened CabinetErrors

  /** The three size constants; each carries a label spelled like its constant name. */
  datatype FileSize = Small | Medium | Large
  {
    /** The label of this constant. */
    function Label(): string
    {
      match this
      case Small => "SMALL"
      case Medium => "MEDIUM"
      case Large => "LARGE"
    }
  }

  /** No two constants share a label. */
  lemma LabelsDistinct(a: FileSize, b: FileSize)
    ensures a.Label() == b.Label() <==> a == b
  {
  }

  /** The constants in declaration order, none of them twice. */
  function Values(): (vs: seq<FileSize>)
    ensures forall i, j :: 0 <= i < j < |vs| ==> vs[i] != vs[j]
  {
    [Small, Medium, Large]
  }

  /** Every constant is among the values. */
  lemma ValuesListEveryConstant(s: FileSize)
    ensures s in Values()
  {
    match s
    case Small => assert Values()[0] == s;
    case Medium => assert Values()[1] == s;
    case Large => assert Values()[2] == s;
  }

  /** A label is supported when some constant carries it, compared exactly. */
  ghost predicate IsSupported(size: string)
  {
    exists s: FileSize :: s.Label() == size
  }

  /** The supported labels are exactly "SMALL", "MEDIUM" and "LARGE": matching is
      case-sensitive and nothing is trimmed. */
  lemma SupportedLabels(size: string)
    ensures IsSupported(size) <==> size == "SMALL" || size == "MEDIUM" || size == "LARGE"
  {
    if size == "SMALL" {
      assert Small.Label() == size;
    } else if size == "MEDIUM" {
      assert Medium.Label() == size;
    } else if size == "LARGE" {
      assert Large.Label() == size;
    }
  }

  /** Labels the tests and common mistakes try are rejected. */
  lemma UnsupportedExamples()
    ensures !IsSupported("EXTRA_LARGE")
    ensures !IsSupported("small") && !IsSupported("Large")
    ensures !IsSupported(" SMALL") && !IsSupported("MEDIUM ") && !IsSupported("")
  {
    SupportedLabels("EXTRA_LARGE");
    SupportedLabels("small");
    SupportedLabels("Large");
    SupportedLabels(" SMALL");
    SupportedLabels("MEDIUM ");
    SupportedLabels("");
  }

  /** Scans the constants in order and returns as soon as one carries `size`;
      fails with an invalid-size error when none does. Changes no state. */
  method ValidateSize(size: string) returns (o: Outcome<CabinetError>)
    ensures o.Pass? <==> IsSupported(size)
    ensures o.Fail? ==> o.error == InvalidSize(size)
  {
    var values := Values();
    for i := 0 to |values|
      invariant forall k :: 0 <= k < i ==> values[k].Label() != size
    {
      if values[i].Label() == size {
        return Pass;
      }
    }
    forall s: FileSize ensures s.Label() != size {
      ValuesListEveryConstant(s);
      var k :| 0 <= k < |values| && values[k] == s;
    }
    return Fail(InvalidSize(size));
  }
}
