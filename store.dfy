/** The agent-profile store (app/store.py): a JSON file holding the list of profiles.
    The file is the field `gems`; `load_all` reads it and `save_all` replaces it and is
    counted in `saves`, so "does not save" can be stated. Seeding the file and
    generating ids are outside the model. */
module Store {
  import opened Wrappers
  import opened Models

  // ---------------------------------------------------------------------------
  // Specification functions

  /** The position of the first profile with this id, if any. */
  function FirstMatch(gems: seq<Gem>, id: string): (r: Option<nat>)
    ensures r.Some? ==> r.value < |gems| && gems[r.value].id == id
    ensures r.Some? ==> forall j :: 0 <= j < r.value ==> gems[j].id != id
    ensures r.None? <==> forall j :: 0 <= j < |gems| ==> gems[j].id != id
  {
    if gems == [] then None
    else if gems[0].id == id then Some(0)
    else match FirstMatch(gems[1..], id)
      case None => None
      case Some(j) => Some(j + 1)
  }

  /** The profile `get_gem` returns. */
  function FindGem(gems: seq<Gem>, id: string): Option<Gem> {
    match FirstMatch(gems, id)
    case None => None
    case Some(i) => Some(gems[i])
  }

  /** `Gem(**{**g.model_dump(), **{k: v for k, v in patch.items() if v is not None}})`. */
  function ApplyPatch(g: Gem, patch: GemUpdate): Gem {
    Gem(g.id,
        patch.name.GetOr(g.name),
        patch.systemPrompt.GetOr(g.systemPrompt),
        patch.tools.GetOr(g.tools),
        patch.temperature.GetOr(g.temperature),
        if patch.model.Some? then patch.model else g.model)
  }

  /** The list `update_gem` leaves: the first match patched, everything else as it was. */
  function Updated(gems: seq<Gem>, id: string, patch: GemUpdate): seq<Gem> {
    match FirstMatch(gems, id)
    case None => gems
    case Some(i) => gems[i := ApplyPatch(gems[i], patch)]
  }

  /** `[g for g in gems if g.id != gem_id]`. */
  function Without(gems: seq<Gem>, id: string): (r: seq<Gem>)
    ensures |r| <= |gems|
    ensures forall g :: g in r <==> g in gems && g.id != id
  {
    if gems == [] then []
    else if gems[0].id == id then Without(gems[1..], id)
    else [gems[0]] + Without(gems[1..], id)
  }

  // ---------------------------------------------------------------------------
  // The store

  class GemStore {
    /** The profiles in `gems.json`, in file order. */
    var gems: seq<Gem>
    /** How many times `save_all` has written the file. */
    var saves: nat

    constructor (gems: seq<Gem>)
      ensures this.gems == gems && saves == 0
    {
      this.gems := gems;
      saves := 0;
    }

    /** `load_all()`. */
    function LoadAll(): seq<Gem>
      reads this
    {
      gems
    }

    /** `save_all(gems)`. */
    method SaveAll(gs: seq<Gem>)
      modifies this
      ensures gems == gs && saves == old(saves) + 1
    {
      gems := gs;
      saves := saves + 1;
    }

    /** `add_gem(gem)`: appended at the end and saved. */
    method AddGem(gem: Gem) returns (r: Gem)
      modifies this
      ensures r == gem
      ensures gems == old(gems) + [gem] && saves == old(saves) + 1
    {
      var gs := LoadAll();
      gs := gs + [gem];
      SaveAll(gs);
      return gem;
    }

    /** `update_gem(gem_id, patch)`: patch the first match, stop, and save only if
        something matched. */
    method UpdateGem(id: string, patch: GemUpdate) returns (updated: Option<Gem>)
      modifies this
      ensures updated == (match FirstMatch(old(gems), id)
                          case None => None
                          case Some(i) => Some(ApplyPatch(old(gems)[i], patch)))
      ensures gems == Updated(old(gems), id, patch)
      ensures saves == old(saves) + (if updated.Some? then 1 else 0)
    {
      var gs := LoadAll();
      updated := None;
      var i := 0;
      while i < |gs|
        invariant 0 <= i <= |gs| && gs == old(gems) && updated.None?
        invariant forall j :: 0 <= j < i ==> gs[j].id != id
      {
        if gs[i].id == id {
          var u := ApplyPatch(gs[i], patch);
          gs := gs[i := u];
          updated := Some(u);
          break;
        }
        i := i + 1;
      }
      if updated.Some? {
        SaveAll(gs);
      }
    }

    /** `delete_gem(gem_id)`: drop every match; report and save only when the list
        got shorter. */
    method DeleteGem(id: string) returns (deleted: bool)
      modifies this
      ensures deleted <==> exists j :: 0 <= j < |old(gems)| && old(gems)[j].id == id
      ensures deleted ==> gems == Without(old(gems), id) && saves == old(saves) + 1
      ensures !deleted ==> gems == old(gems) && saves == old(saves)
    {
      var gs := LoadAll();
      var kept := Without(gs, id);
      DeleteShortens(gs, id);
      if |kept| == |gs| {
        return false;
      }
      SaveAll(kept);
      return true;
    }

    /** `get_gem(gem_id)`: the first profile with that id. */
    method GetGem(id: string) returns (r: Option<Gem>)
      ensures r == FindGem(gems, id)
    {
      var gs := LoadAll();
      for i := 0 to |gs|
        invariant forall j :: 0 <= j < i ==> gs[j].id != id
      {
        if gs[i].id == id {
          return Some(gs[i]);
        }
      }
      return None;
    }
  }

  // ---------------------------------------------------------------------------
  // Lemmas

  /** An update keeps the length and every id, rewrites the first match and nothing
      else, and leaves the list alone when nothing matches. */
  lemma UpdateTouchesFirstMatchOnly(gems: seq<Gem>, id: string, patch: GemUpdate)
    ensures var r := Updated(gems, id, patch);
      && |r| == |gems|
      && (forall j :: 0 <= j < |gems| ==> r[j].id == gems[j].id)
      && (FirstMatch(gems, id).None? ==> r == gems)
      && (FirstMatch(gems, id).Some? ==>
            var i := FirstMatch(gems, id).value;
            r[i] == ApplyPatch(gems[i], patch)
            && forall j :: 0 <= j < |gems| && j != i ==> r[j] == gems[j])
  {
  }

  /** A patch overwrites exactly the fields it sets; the empty patch changes nothing,
      and applying a patch twice is applying it once. */
  lemma PatchFields(g: Gem, patch: GemUpdate)
    ensures var r := ApplyPatch(g, patch);
      && r.id == g.id
      && r.name == (if patch.name.Some? then patch.name.value else g.name)
      && r.systemPrompt == (if patch.systemPrompt.Some? then patch.systemPrompt.value else g.systemPrompt)
      && r.tools == (if patch.tools.Some? then patch.tools.value else g.tools)
      && r.temperature == (if patch.temperature.Some? then patch.temperature.value else g.temperature)
      && r.model == (if patch.model.Some? then patch.model else g.model)
    ensures ApplyPatch(g, GemUpdate()) == g
    ensures ApplyPatch(ApplyPatch(g, patch), patch) == ApplyPatch(g, patch)
  {
  }

  /** A model override, once set, cannot be cleared by an update. */
  lemma ModelOverrideSticks(gems: seq<Gem>, id: string, patch: GemUpdate, j: nat)
    requires j < |gems| && gems[j].model.Some?
    ensures Updated(gems, id, patch)[j].model.Some?
  {
  }

  /** Deleting keeps the order of the profiles that stay. */
  lemma {:induction false} WithoutConcat(a: seq<Gem>, b: seq<Gem>, id: string)
    ensures Without(a + b, id) == Without(a, id) + Without(b, id)
  {
    if a != [] {
      var h, t := a[0], a[1..];
      var kept := if h.id == id then [] else [h];
      assert a == [h] + t && a + b == [h] + (t + b);
      WithoutCons(h, t, id);
      WithoutCons(h, t + b, id);
      WithoutConcat(t, b, id);
      var x, y := Without(t, id), Without(b, id);
      assert kept + (x + y) == (kept + x) + y;
    } else {
      assert a + b == b;
    }
  }

  /** One step of the deletion. */
  lemma WithoutCons(h: Gem, t: seq<Gem>, id: string)
    ensures Without([h] + t, id) == (if h.id == id then [] else [h]) + Without(t, id)
  {
    assert ([h] + t)[0] == h && ([h] + t)[1..] == t;
  }

  /** Deleting an id no profile has leaves the list as it is. */
  lemma {:induction false} WithoutNoMatch(gems: seq<Gem>, id: string)
    requires forall j :: 0 <= j < |gems| ==> gems[j].id != id
    ensures Without(gems, id) == gems
  {
    if gems != [] {
      WithoutNoMatch(gems[1..], id);
    }
  }

  /** The list gets shorter exactly when some profile has the id. */
  lemma {:induction false} DeleteShortens(gems: seq<Gem>, id: string)
    ensures |Without(gems, id)| < |gems| <==> exists j :: 0 <= j < |gems| && gems[j].id == id
  {
    if gems != [] {
      DeleteShortens(gems[1..], id);
      if gems[0].id != id {
        if exists j :: 0 <= j < |gems| && gems[j].id == id {
          var j :| 0 <= j < |gems| && gems[j].id == id;
          assert gems[1..][j - 1].id == id;
        }
      }
    }
  }

  /** `get_gem` finds a profile exactly when one has the id, and it is the first. */
  lemma FindGemFirst(gems: seq<Gem>, id: string)
    ensures FindGem(gems, id).None? <==> forall g :: g in gems ==> g.id != id
    ensures FindGem(gems, id).Some? ==>
      exists i :: 0 <= i < |gems| && FindGem(gems, id).value == gems[i] && gems[i].id == id
        && forall j :: 0 <= j < i ==> gems[j].id != id
  {
    if FindGem(gems, id).Some? {
      var i := FirstMatch(gems, id).value;
      assert FindGem(gems, id).value == gems[i];
    }
  }

  /** Ids survive an update, so the first match stays where it was. */
  lemma {:induction false} FirstMatchSameIds(a: seq<Gem>, b: seq<Gem>, id: string)
    requires |a| == |b| && forall j :: 0 <= j < |a| ==> a[j].id == b[j].id
    ensures FirstMatch(a, id) == FirstMatch(b, id)
  {
    if a != [] {
      FirstMatchSameIds(a[1..], b[1..], id);
    }
  }
}
