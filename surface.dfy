/** `clean_surface` of src/utils.py (lines 11-30): OSM surface tags to model classes. */
module SrcUtils {
  const UnpavedTags: seq<string> := ["compacted", "gravel", "ground", "fine_gravel", "dirt", "grass", "earth", "sand"]
  const SettTags: seq<string> := ["cobblestone", "unhewn_cobblestone"]
  const ConcreteTags: seq<string> := ["concrete:plates", "concrete:lanes"]
  const PavingStonesTags: seq<string> := ["grass_paver"]

  /** Every tag that `CleanSurface` rewrites. */
  predicate IsRemapped(surface: string)
  {
    surface in UnpavedTags || surface in SettTags || surface in ConcreteTags || surface in PavingStonesTags
  }

  function CleanSurface(surface: string): (r: string)
    ensures surface in UnpavedTags ==> r == "unpaved"
    ensures surface in SettTags ==> r == "sett"
    ensures surface in ConcreteTags ==> r == "concrete"
    ensures surface in PavingStonesTags ==> r == "paving_stones"
    ensures !IsRemapped(surface) ==> r == surface
  {
    if surface in UnpavedTags then "unpaved"
    else if surface in SettTags then "sett"
    else if surface in ConcreteTags then "concrete"
    else if surface in PavingStonesTags then "paving_stones"
    else surface
  }

  /** The four tag lists are disjoint, so the order of the tests does not matter. */
  lemma TagListsDisjoint(surface: string)
    ensures surface in UnpavedTags ==> surface !in SettTags && surface !in ConcreteTags && surface !in PavingStonesTags
    ensures surface in SettTags ==> surface !in ConcreteTags && surface !in PavingStonesTags
    ensures surface in ConcreteTags ==> surface !in PavingStonesTags
  {
  }

  /** No class name is itself a remapped tag, so cleaning never yields a tag that would be rewritten again. */
  lemma CleanSurfaceNotRemapped(surface: string)
    ensures IsRemapped(surface) ==> !IsRemapped(CleanSurface(surface))
    ensures !IsRemapped(surface) ==> !IsRemapped(CleanSurface(surface))
  {
  }

  /** Cleaning twice is cleaning once. */
  lemma CleanSurfaceIdempotent(surface: string)
    ensures CleanSurface(CleanSurface(surface)) == CleanSurface(surface)
  {
  }

  /** The image of `CleanSurface` on the remapped tags is exactly the four class names. */
  lemma CleanSurfaceClasses(surface: string)
    requires IsRemapped(surface)
    ensures CleanSurface(surface) in {"unpaved", "sett", "concrete", "paving_stones"}
  {
  }
}

/** `clean_surface` of other/utils.py (lines 1-20), a second copy of the same mapping. */
module OtherUtils {
  import SrcUtils

  function CleanSurface(surface: string): (r: string)
    ensures r == SrcUtils.CleanSurface(surface)
  {
    if surface in ["compacted", "gravel", "ground", "fine_gravel", "dirt", "grass", "earth", "sand"] then "unpaved"
    else if surface in ["cobblestone", "unhewn_cobblestone"] then "sett"
    else if surface in ["concrete:plates", "concrete:lanes"] then "concrete"
    else if surface in ["grass_paver"] then "paving_stones"
    else surface
  }

  /** The copy is idempotent too, and its output is never a remapped tag. */
  lemma CleanSurfaceIdempotent(surface: string)
    ensures CleanSurface(CleanSurface(surface)) == CleanSurface(surface)
    ensures !SrcUtils.IsRemapped(CleanSurface(surface))
  {
  }
}
