/** Bookkeeping of the preset and character names behind the "enable embedded
    scripts?" prompt: `popuped` lists the names the prompt has already been shown
    for, `enabled` the names whose scripts were enabled. The watchers and event
    handlers push, pull and remove names in these lists. */
module Enablement {
  import opened Wrappers
  import opened Strings

  predicate NoDup(xs: seq<string>) {
    forall i, j :: 0 <= i < j < |xs| ==> xs[i] != xs[j]
  }

  /** `_.pull(xs, x)`: every occurrence of `x` removed, the rest in order */
  function Pull(xs: seq<string>, x: string): (r: seq<string>)
    ensures x !in r
    ensures forall y :: y in r <==> y in xs && y != x
    ensures |r| <= |xs|
    ensures x !in xs ==> r == xs
  {
    if xs == [] then []
    else if xs[0] == x then Pull(xs[1..], x)
    else [xs[0]] + Pull(xs[1..], x)
  }

  /** Pulling never introduces a repeated name */
  lemma {:induction false} PullKeepsNoDup(xs: seq<string>, x: string)
    requires NoDup(xs)
    ensures NoDup(Pull(xs, x))
  {
    if xs != [] {
      PullKeepsNoDup(xs[1..], x);
      var rest := Pull(xs[1..], x);
      if xs[0] != x {
        assert xs[0] !in xs[1..];
        assert xs[0] !in rest;
        var r := [xs[0]] + rest;
        forall i, j | 0 <= i < j < |r|
          ensures r[i] != r[j]
        {
          if i == 0 {
            assert r[j] in rest;
          }
        }
      }
    }
  }

  /** A rename in one list: if `oldName` is present, all its occurrences are pulled
      and `newName` is pushed at the end; otherwise the list is unchanged. */
  function Renamed(xs: seq<string>, oldName: string, newName: string): (r: seq<string>)
    ensures oldName !in xs ==> r == xs
    ensures oldName in xs ==> r == Pull(xs, oldName) + [newName]
  {
    if oldName in xs then Pull(xs, oldName) + [newName] else xs
  }

  /** After a rename the old name is gone (unless it is also the new name), the new name
      is present, and every other name is kept */
  lemma {:induction false} RenamedContents(xs: seq<string>, oldName: string, newName: string, y: string)
    requires oldName in xs
    ensures newName in Renamed(xs, oldName, newName)
    ensures oldName != newName ==> oldName !in Renamed(xs, oldName, newName)
    ensures y != oldName && y != newName ==> (y in Renamed(xs, oldName, newName) <==> y in xs)
  {
  }

  /** `_.remove(xs, item => !names.includes(item))`: keeps the items listed in `names` */
  function KeepListed(xs: seq<string>, names: seq<string>): (r: seq<string>)
    ensures forall y :: y in r <==> y in xs && y in names
    ensures |r| <= |xs|
  {
    if xs == [] then []
    else if xs[0] in names then [xs[0]] + KeepListed(xs[1..], names)
    else KeepListed(xs[1..], names)
  }

  /** `avatar.replace('.png', '')`: the first `.png` removed */
  function NameFromAvatar(avatar: string): (name: string)
    ensures !Contains(avatar, ".png") ==> name == avatar
    ensures Contains(avatar, ".png") ==> |name| == |avatar| - 4
  {
    ReplaceFirst(avatar, ".png", "")
  }

  /** The script settings lists (`global_settings.settings.script`) */
  class ScriptSettings {
    var popupedPresets: seq<string>
    var enabledPresets: seq<string>
    var popupedCharacters: seq<string>
    var enabledCharacters: seq<string>

    constructor(popupedPresets: seq<string>, enabledPresets: seq<string>,
                popupedCharacters: seq<string>, enabledCharacters: seq<string>)
      ensures this.popupedPresets == popupedPresets && this.enabledPresets == enabledPresets
      ensures this.popupedCharacters == popupedCharacters && this.enabledCharacters == enabledCharacters
    {
      this.popupedPresets := popupedPresets;
      this.enabledPresets := enabledPresets;
      this.popupedCharacters := popupedCharacters;
      this.enabledCharacters := enabledCharacters;
    }

    /** The preset-name watcher. `scriptCount` is the number of embedded script trees
        and `scriptsEnabled` whether they are already on; `prompted` says whether the
        prompt is opened, which happens exactly when the name is pushed. */
    method OnPresetSwitched(newName: string, scriptCount: nat, scriptsEnabled: bool) returns (prompted: bool)
      modifies this
      ensures prompted <==> scriptCount != 0 && !scriptsEnabled && newName !in old(popupedPresets)
      ensures popupedPresets == if prompted then old(popupedPresets) + [newName] else old(popupedPresets)
      ensures NoDup(old(popupedPresets)) ==> NoDup(popupedPresets)
      ensures enabledPresets == old(enabledPresets)
      ensures popupedCharacters == old(popupedCharacters) && enabledCharacters == old(enabledCharacters)
    {
      if scriptCount == 0 || scriptsEnabled {
        return false;
      }
      prompted := newName !in popupedPresets;
      if prompted {
        popupedPresets := popupedPresets + [newName];
      }
    }

    /** `PRESET_RENAMED_BEFORE` (hosts from 1.13.5 on) */
    method OnPresetRenamed(oldName: string, newName: string)
      modifies this
      ensures popupedPresets == Renamed(old(popupedPresets), oldName, newName)
      ensures enabledPresets == Renamed(old(enabledPresets), oldName, newName)
      ensures popupedCharacters == old(popupedCharacters) && enabledCharacters == old(enabledCharacters)
    {
      if oldName in popupedPresets {
        popupedPresets := Pull(popupedPresets, oldName) + [newName];
      }
      if oldName in enabledPresets {
        enabledPresets := Pull(enabledPresets, oldName) + [newName];
      }
    }

    /** `PRESET_DELETED` (hosts from 1.13.5 on) */
    method OnPresetDeleted(name: string)
      modifies this
      ensures popupedPresets == Pull(old(popupedPresets), name)
      ensures enabledPresets == Pull(old(enabledPresets), name)
      ensures popupedCharacters == old(popupedCharacters) && enabledCharacters == old(enabledCharacters)
    {
      if name in popupedPresets {
        popupedPresets := Pull(popupedPresets, name);
      }
      enabledPresets := Pull(enabledPresets, name);
    }

    /** `OAI_PRESET_CHANGED_AFTER` on older hosts: names no longer among the presets are dropped */
    method OnPresetListChanged(names: seq<string>)
      modifies this
      ensures popupedPresets == KeepListed(old(popupedPresets), names)
      ensures enabledPresets == KeepListed(old(enabledPresets), names)
      ensures popupedCharacters == old(popupedCharacters) && enabledCharacters == old(enabledCharacters)
    {
      popupedPresets := KeepListed(popupedPresets, names);
      enabledPresets := KeepListed(enabledPresets, names);
    }

    /** The character-name watcher; an undefined name (no character selected) is ignored */
    method OnCharacterSwitched(newName: Option<string>, scriptCount: nat, scriptsEnabled: bool) returns (prompted: bool)
      modifies this
      ensures prompted <==> newName.Some? && scriptCount != 0 && !scriptsEnabled
                            && newName.value !in old(popupedCharacters)
      ensures popupedCharacters == if prompted then old(popupedCharacters) + [newName.value] else old(popupedCharacters)
      ensures NoDup(old(popupedCharacters)) ==> NoDup(popupedCharacters)
      ensures enabledCharacters == old(enabledCharacters)
      ensures popupedPresets == old(popupedPresets) && enabledPresets == old(enabledPresets)
    {
      if newName.None? || scriptCount == 0 || scriptsEnabled {
        return false;
      }
      prompted := newName.value !in popupedCharacters;
      if prompted {
        popupedCharacters := popupedCharacters + [newName.value];
      }
    }

    /** `CHARACTER_RENAMED`: the names are the avatars without their `.png` */
    method OnCharacterRenamed(oldAvatar: string, newAvatar: string)
      modifies this
      ensures popupedCharacters == Renamed(old(popupedCharacters), NameFromAvatar(oldAvatar), NameFromAvatar(newAvatar))
      ensures enabledCharacters == Renamed(old(enabledCharacters), NameFromAvatar(oldAvatar), NameFromAvatar(newAvatar))
      ensures popupedPresets == old(popupedPresets) && enabledPresets == old(enabledPresets)
    {
      var oldName := NameFromAvatar(oldAvatar);
      var newName := NameFromAvatar(newAvatar);
      if oldName in popupedCharacters {
        popupedCharacters := Pull(popupedCharacters, oldName) + [newName];
      }
      if oldName in enabledCharacters {
        enabledCharacters := Pull(enabledCharacters, oldName) + [newName];
      }
    }

    /** `CHARACTER_DELETED` */
    method OnCharacterDeleted(name: string)
      modifies this
      ensures popupedCharacters == Pull(old(popupedCharacters), name)
      ensures enabledCharacters == Pull(old(enabledCharacters), name)
      ensures popupedPresets == old(popupedPresets) && enabledPresets == old(enabledPresets)
    {
      if name in popupedCharacters {
        popupedCharacters := Pull(popupedCharacters, name);
      }
      enabledCharacters := Pull(enabledCharacters, name);
    }
  }
}
