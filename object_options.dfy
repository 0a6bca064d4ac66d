/** The object pick-lists of the selector: every object name the org reports is
    turned into a `{label, value}` option and routed to the custom list (names
    ending in `__c`) or to the standard list; each list is then sorted by label. */
module ObjectOptions {

  /** One entry of a pick-list, `{label, value}` (`label` is a Dafny keyword, hence
      `labelText`); the selector always uses the object name for both. */
  datatype ObjectOption = ObjectOption(labelText: string, value: string)

  const CUSTOM_SUFFIX := "__c"

  function OptionFor(name: string): ObjectOption {
    ObjectOption(name, name)
  }

  /** The name ends with the custom-object suffix `__c`. */
  predicate IsCustomObjectName(name: string) {
    |name| >= |CUSTOM_SUFFIX| && name[|name| - |CUSTOM_SUFFIX|..] == CUSTOM_SUFFIX
  }

  /** A name is custom exactly when it is some (possibly empty) text followed by `__c`. */
  lemma CustomNameIff(name: string)
    ensures IsCustomObjectName(name) <==> exists prefix :: name == prefix + CUSTOM_SUFFIX
  {
    if IsCustomObjectName(name) {
      var prefix := name[..|name| - |CUSTOM_SUFFIX|];
      assert name == prefix + CUSTOM_SUFFIX;
    }
    if exists prefix :: name == prefix + CUSTOM_SUFFIX {
      var prefix :| name == prefix + CUSTOM_SUFFIX;
      assert name[|name| - |CUSTOM_SUFFIX|..] == CUSTOM_SUFFIX;
    }
  }

  /** The options of `names` in input order. */
  function OptionsOf(names: seq<string>): seq<ObjectOption> {
    if names == [] then [] else OptionsOf(names[..|names| - 1]) + [OptionFor(names[|names| - 1])]
  }

  /** The custom options pushed while scanning `names` front to back. */
  function CustomOptions(names: seq<string>): seq<ObjectOption> {
    if names == [] then []
    else
      var last := names[|names| - 1];
      CustomOptions(names[..|names| - 1]) + (if IsCustomObjectName(last) then [OptionFor(last)] else [])
  }

  /** The standard options pushed while scanning `names` front to back. */
  function StandardOptions(names: seq<string>): seq<ObjectOption> {
    if names == [] then []
    else
      var last := names[|names| - 1];
      StandardOptions(names[..|names| - 1]) + (if IsCustomObjectName(last) then [] else [OptionFor(last)])
  }

  /** The `forEach` of `wiredObjects`: scan the names once, pushing each option
      onto the custom or the standard list. */
  method PartitionNames(names: seq<string>) returns (standard: seq<ObjectOption>, custom: seq<ObjectOption>)
    ensures standard == StandardOptions(names)
    ensures custom == CustomOptions(names)
  {
    standard, custom := [], [];
    var i := 0;
    while i < |names|
      invariant 0 <= i <= |names|
      invariant standard == StandardOptions(names[..i])
      invariant custom == CustomOptions(names[..i])
    {
      var name := names[i];
      assert names[..i + 1][..i] == names[..i];
      if IsCustomObjectName(name) {
        custom := custom + [OptionFor(name)];
      } else {
        standard := standard + [OptionFor(name)];
      }
      i := i + 1;
    }
    assert names[..i] == names;
  }

  /** Every name goes to exactly one list, as many times as it occurs in the
      input: to the custom list when it ends in `__c`, otherwise to the standard one. */
  lemma {:induction false} PartitionCounts(names: seq<string>, name: string)
    ensures multiset(CustomOptions(names))[OptionFor(name)]
            == (if IsCustomObjectName(name) then multiset(names)[name] else 0)
    ensures multiset(StandardOptions(names))[OptionFor(name)]
            == (if IsCustomObjectName(name) then 0 else multiset(names)[name])
  {
    if names != [] {
      var init, last := names[..|names| - 1], names[|names| - 1];
      assert names == init + [last];
      PartitionCounts(init, name);
      assert OptionFor(last) == OptionFor(name) <==> last == name;
    }
  }

  /** Every option of the custom list has a custom name and every option of
      the standard list a standard one; in both, label and value are that name. */
  lemma {:induction false} PartitionShape(names: seq<string>)
    ensures forall o :: o in CustomOptions(names) ==>
              o == OptionFor(o.labelText) && IsCustomObjectName(o.labelText) && o.labelText in names
    ensures forall o :: o in StandardOptions(names) ==>
              o == OptionFor(o.labelText) && !IsCustomObjectName(o.labelText) && o.labelText in names
  {
    if names != [] {
      var init := names[..|names| - 1];
      PartitionShape(init);
      assert forall n :: n in init ==> n in names;
    }
  }

  /** The two lists together are the options of the input, up to order. */
  lemma {:induction false} PartitionIsPermutation(names: seq<string>)
    ensures multiset(CustomOptions(names)) + multiset(StandardOptions(names)) == multiset(OptionsOf(names))
  {
    if names != [] {
      PartitionIsPermutation(names[..|names| - 1]);
    }
  }

  /** What any two lists hold that are permutations of the two shares of
      `names`, such as the sorted lists the wire handler stores: a name
      occurs in the two together exactly as often as in the input, a custom
      name in the custom list and any other in the standard list, always as
      an option whose label and value are the name. */
  lemma PartitionedLists(names: seq<string>, standard: seq<ObjectOption>, custom: seq<ObjectOption>)
    requires multiset(standard) == multiset(StandardOptions(names))
    requires multiset(custom) == multiset(CustomOptions(names))
    ensures forall n :: multiset(custom)[OptionFor(n)] + multiset(standard)[OptionFor(n)] == multiset(names)[n]
    ensures forall n :: n in names && IsCustomObjectName(n) ==> OptionFor(n) in custom && OptionFor(n) !in standard
    ensures forall n :: n in names && !IsCustomObjectName(n) ==> OptionFor(n) in standard && OptionFor(n) !in custom
    ensures forall o :: o in custom ==>
              o == OptionFor(o.labelText) && IsCustomObjectName(o.labelText) && o.labelText in names
    ensures forall o :: o in standard ==>
              o == OptionFor(o.labelText) && !IsCustomObjectName(o.labelText) && o.labelText in names
  {
    forall n
      ensures multiset(custom)[OptionFor(n)] + multiset(standard)[OptionFor(n)] == multiset(names)[n]
      ensures n in names && IsCustomObjectName(n) ==> OptionFor(n) in custom && OptionFor(n) !in standard
      ensures n in names && !IsCustomObjectName(n) ==> OptionFor(n) in standard && OptionFor(n) !in custom
    {
      PartitionCounts(names, n);
    }
    PartitionShape(names);
    forall o | o in custom ensures o in CustomOptions(names) {
      assert o in multiset(custom);
    }
    forall o | o in standard ensures o in StandardOptions(names) {
      assert o in multiset(standard);
    }
  }

  /** `localeCompare` is abstracted as a total preorder `le` on labels:
      `le(x, y)` stands for `x.localeCompare(y) <= 0`. */
  ghost predicate TotalPreorder(le: (string, string) -> bool) {
    && (forall x, y :: le(x, y) || le(y, x))
    && (forall x, y, z :: le(x, y) && le(y, z) ==> le(x, z))
  }

  ghost predicate SortedByLabel(s: seq<ObjectOption>, le: (string, string) -> bool) {
    forall i, j :: 0 <= i < j < |s| ==> le(s[i].labelText, s[j].labelText)
  }

  /** The array sort with the label comparator: sorts the array in place,
      non-decreasing by label under `le`, keeping its elements. */
  method SortOptionsAlphabetically(options: array<ObjectOption>, le: (string, string) -> bool)
    requires TotalPreorder(le)
    modifies options
    ensures SortedByLabel(options[..], le)
    ensures multiset(options[..]) == multiset(old(options[..]))
  {
    var i := 0;
    while i < options.Length
      invariant 0 <= i <= options.Length
      invariant forall p, q :: 0 <= p < q < i ==> le(options[p].labelText, options[q].labelText)
      invariant multiset(options[..]) == multiset(old(options[..]))
    {
      // sink options[i] leftwards past every strictly larger label
      var j := i;
      while 0 < j && !le(options[j - 1].labelText, options[j].labelText)
        invariant 0 <= j <= i
        invariant forall p, q :: 0 <= p < q <= i && p != j && q != j ==> le(options[p].labelText, options[q].labelText)
        invariant forall q :: j < q <= i ==> le(options[j].labelText, options[q].labelText)
        invariant multiset(options[..]) == multiset(old(options[..]))
      {
        options[j - 1], options[j] := options[j], options[j - 1];
        j := j - 1;
      }
      i := i + 1;
    }
  }
}
