/**
 The preset store of TheDotFactory (OutputConfigurationManager): an ordered list of
 output configurations addressed by position, plus one working configuration used
 while editing.

 The list operations are first stated as functions on sequences (`RemovedAt`,
 `AfterLoad`, `DisplayNames`) whose meaning is proved; the class's methods change
 the list in place and are proved to agree with those functions.
 */
module ConfigManager {
  import opened OutputConfig

  /** The outcome of opening and deserializing a preset file: an I/O error, or the
      list that was read. */
  datatype ReadOutcome = IOException | Deserialized(list: seq<OutputConfiguration>)

  /** The list after removing the entry at `i`; out-of-range `i` leaves it unchanged. */
  function RemovedAt<T>(s: seq<T>, i: int): (r: seq<T>)
    ensures 0 <= i < |s| ==> |r| == |s| - 1
    ensures 0 <= i < |s| ==> forall k :: 0 <= k < i ==> r[k] == s[k]
    ensures 0 <= i < |s| ==> forall k :: i <= k < |r| ==> r[k] == s[k + 1]
    ensures !(0 <= i < |s|) ==> r == s
  {
    if 0 <= i < |s| then s[..i] + s[i + 1..] else s
  }

  /** Removing the entry at `i` removes exactly that one value from the multiset of entries. */
  lemma RemovedAtMultiset<T>(s: seq<T>, i: int)
    requires 0 <= i < |s|
    ensures multiset(RemovedAt(s, i)) + multiset{s[i]} == multiset(s)
  {
    assert s == s[..i] + [s[i]] + s[i + 1..];
  }

  /** Removing the entry just appended gives back the list as it was before. */
  lemma RemoveUndoesAdd<T>(s: seq<T>, c: T)
    ensures RemovedAt(s + [c], |s|) == s
  {
  }

  /** After appending `c`, position `|s|` holds `c` and every earlier position is as it was. */
  lemma GetAfterAdd<T>(s: seq<T>, c: T, i: int)
    requires 0 <= i <= |s|
    ensures |s + [c]| == |s| + 1
    ensures (s + [c])[i] == if i == |s| then c else s[i]
  {
  }

  /** The list after a load: the list read when the read succeeded, otherwise the old list. */
  function AfterLoad(current: seq<OutputConfiguration>, read: ReadOutcome): (r: seq<OutputConfiguration>)
    ensures read.Deserialized? ==> r == read.list
    ensures read.IOException? ==> r == current
  {
    match read
    case Deserialized(loaded) => loaded
    case IOException => current
  }

  /** The display names of the presets, in list order. */
  function DisplayNames(s: seq<OutputConfiguration>): (names: seq<string>)
    ensures |names| == |s|
    ensures forall k :: 0 <= k < |s| ==> names[k] == s[k].displayName
  {
    if s == [] then [] else DisplayNames(s[..|s| - 1]) + [s[|s| - 1].displayName]
  }

  /** The names stay in step with the list by position: adding a preset appends its
      name, and deleting at `i` deletes the name at `i`. */
  lemma DisplayNamesFollowList(s: seq<OutputConfiguration>, c: OutputConfiguration, i: int)
    ensures DisplayNames(s + [c]) == DisplayNames(s) + [c.displayName]
    ensures DisplayNames(RemovedAt(s, i)) == RemovedAt(DisplayNames(s), i)
  {
  }

  class OutputConfigurationManager {
    /** The presets, in display and index order. */
    var configurations: seq<OutputConfiguration>
    /** The configuration in use when there are no presets and while one is edited. */
    var workingOutputConfiguration: OutputConfiguration

    /** A store with no presets and a default working configuration. */
    constructor ()
      ensures configurations == []
      ensures workingOutputConfiguration == Default()
    {
      configurations := [];
      workingOutputConfiguration := Default();
    }

    /** Appends `configToAdd` and returns the index it now has. */
    method ConfigurationAdd(configToAdd: OutputConfiguration) returns (index: int)
      modifies this`configurations
      ensures configurations == old(configurations) + [configToAdd]
      ensures ConfigurationCountGet() == old(ConfigurationCountGet()) + 1
      ensures index == ConfigurationCountGet() - 1
      ensures 0 <= index && ConfigurationGetAtIndex(index) == configToAdd
      ensures forall k :: 0 <= k < old(ConfigurationCountGet()) ==>
                ConfigurationGetAtIndex(k) == old(ConfigurationGetAtIndex(k))
    {
      configurations := configurations + [configToAdd];
      index := ConfigurationCountGet() - 1;
    }

    /** Removes the preset at `configIdxToRemove` when it is in range; otherwise does nothing. */
    method ConfigurationDelete(configIdxToRemove: int)
      modifies this`configurations
      ensures configurations == RemovedAt(old(configurations), configIdxToRemove)
      ensures 0 <= configIdxToRemove < old(ConfigurationCountGet()) ==>
                ConfigurationCountGet() == old(ConfigurationCountGet()) - 1
      ensures !(0 <= configIdxToRemove < old(ConfigurationCountGet())) ==>
                configurations == old(configurations)
    {
      if configIdxToRemove >= 0 && configIdxToRemove < ConfigurationCountGet() {
        configurations := configurations[..configIdxToRemove] + configurations[configIdxToRemove + 1..];
      }
    }

    /** The number of presets: one per position of the list. */
    function ConfigurationCountGet(): (n: nat)
      reads this
      ensures n == |configurations|
    {
      |configurations|
    }

    /** The preset at `index`; the list access is not bounds-checked, so callers must
        pass an index in range. */
    function ConfigurationGetAtIndex(index: int): (c: OutputConfiguration)
      reads this
      requires 0 <= index < |configurations|
      ensures c == configurations[index] && c in configurations
    {
      configurations[index]
    }

    /** The list the saved file holds: the whole list, in order; the working
        configuration is not saved. */
    method SaveToFile() returns (written: seq<OutputConfiguration>)
      ensures written == configurations
    {
      written := configurations;
    }

    /** Replaces the whole list by the list read, when the read succeeded; on an I/O
        error nothing changes and nothing is signalled. */
    method LoadFromFile(read: ReadOutcome)
      modifies this`configurations
      ensures configurations == AfterLoad(old(configurations), read)
      ensures read.IOException? ==> configurations == old(configurations)
    {
      match read {
        case Deserialized(loaded) =>
          configurations := loaded;
        case IOException =>
      }
    }

    /** The names the selection list is filled with: one per preset, in list order. */
    method ComboboxPopulate() returns (items: seq<string>)
      ensures |items| == |configurations|
      ensures forall k :: 0 <= k < |items| ==> items[k] == configurations[k].displayName
      ensures items == DisplayNames(configurations)
    {
      items := [];
      for i := 0 to |configurations|
        invariant |items| == i
        invariant forall k :: 0 <= k < i ==> items[k] == configurations[k].displayName
      {
        items := items + [configurations[i].displayName];
      }
    }
  }

  /** Saving store `a` and loading that file into another store `b` gives `b` exactly
      `a`'s presets, in the same order. `a` is unchanged and `b` keeps its working
      configuration. */
  method LoadAfterSave(a: OutputConfigurationManager, b: OutputConfigurationManager)
    requires a != b
    modifies b
    ensures b.configurations == a.configurations
    ensures b.ConfigurationCountGet() == a.ConfigurationCountGet()
    ensures b.workingOutputConfiguration == old(b.workingOutputConfiguration)
    ensures a.configurations == old(a.configurations)
  {
    var written := a.SaveToFile();
    b.LoadFromFile(Deserialized(written));
  }
}
