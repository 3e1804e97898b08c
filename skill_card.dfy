/** A skill card's icon: a lookup of the skill's icon key in the icon table
    and in the colour table, with the generic code icon as the fallback. */
module SkillCard {
  import opened Common
  import opened Types
  import Catalogue

  /** The icon components the card can draw. */
  datatype Icon =
    | SiNextdotjs | SiReact | SiTypescript | SiNodedotjs | SiExpress | SiJavascript
    | SiTailwindcss | SiMongodb | SiPostgresql | SiGit | SiDocker | SiVercel
    | SiRedux | SiPrisma | SiEthereum | SiElementor | Brain | Code

  /** `iconMap`. */
  const IconMap: map<string, Icon> := map[
    "nextdotjs" := SiNextdotjs, "react" := SiReact, "typescript" := SiTypescript,
    "nodedotjs" := SiNodedotjs, "express" := SiExpress, "javascript" := SiJavascript,
    "tailwindcss" := SiTailwindcss, "mongodb" := SiMongodb, "postgresql" := SiPostgresql,
    "git" := SiGit, "docker" := SiDocker, "vercel" := SiVercel, "redux" := SiRedux,
    "prisma" := SiPrisma, "ethereum" := SiEthereum, "elementor" := SiElementor,
    "openai" := Brain]

  /** `iconColors`. */
  const IconColors: map<string, string> := map[
    "nextdotjs" := "#000000", "react" := "#61DAFB", "typescript" := "#3178C6",
    "javascript" := "#F7DF1E", "nodedotjs" := "#5FA04E", "express" := "#000000",
    "redux" := "#764ABC", "tailwindcss" := "#06B6D4", "mongodb" := "#47A248",
    "postgresql" := "#4169E1", "prisma" := "#2D3748", "elementor" := "#92003B"]

  /** The colour of the fallback, used both as the wrapper colour when there
      is no key and on the code icon itself. */
  const FallbackColor := "#0284C7"

  /** What the card draws: the icon, the colour set on its wrapper (`None`
      when the lookup gives `undefined`) and the colour the icon ends up in. */
  datatype IconView = IconView(icon: Icon, wrapperColor: Option<string>, iconColor: Option<string>)

  function Lookup<V>(m: map<string, V>, key: string): Option<V> {
    if key in m then Some(m[key]) else None
  }

  /** The icon and colours for an icon key. A table icon takes its colour from
      the wrapper; the code fallback carries its own colour. */
  function IconFor(iconName: Option<string>): (r: IconView)
    ensures !Truthy(iconName) ==> r == IconView(Code, Some(FallbackColor), Some(FallbackColor))
    ensures Truthy(iconName) && iconName.value in IconMap ==>
      r.icon == IconMap[iconName.value] && r.icon != Code
      && r.wrapperColor == r.iconColor
      && r.wrapperColor == Lookup(IconColors, iconName.value)
    ensures Truthy(iconName) && iconName.value !in IconMap ==>
      r.icon == Code && r.iconColor == Some(FallbackColor) && r.wrapperColor == Lookup(IconColors, iconName.value)
  {
    if !Truthy(iconName) then IconView(Code, Some(FallbackColor), Some(FallbackColor))
    else
      var wrapper := Lookup(IconColors, iconName.value);
      match Lookup(IconMap, iconName.value)
      case Some(icon) => IconView(icon, wrapper, wrapper)
      case None => IconView(Code, wrapper, Some(FallbackColor))
  }

  const IconKeys: set<string> := {"nextdotjs", "react", "typescript", "nodedotjs", "express",
    "javascript", "tailwindcss", "mongodb", "postgresql", "git", "docker", "vercel", "redux",
    "prisma", "ethereum", "elementor", "openai"}

  const ColorKeys: set<string> := {"nextdotjs", "react", "typescript", "javascript", "nodedotjs",
    "express", "redux", "tailwindcss", "mongodb", "postgresql", "prisma", "elementor"}

  const UncoloredKeys: set<string> := {"git", "docker", "vercel", "ethereum", "openai"}

  lemma TableKeys()
    ensures IconMap.Keys == IconKeys && IconColors.Keys == ColorKeys
  {
  }

  lemma ColorKeysAreIconKeys()
    ensures ColorKeys <= IconKeys
  {
  }

  lemma KeySplit()
    ensures IconKeys == ColorKeys + UncoloredKeys
  {
  }

  lemma KeysDisjoint()
    ensures ColorKeys !! UncoloredKeys
  {
    forall u, c | u in UncoloredKeys && c in ColorKeys
      ensures u != c
    {
      assert |u| != |c| || u[0] != c[0];
    }
  }

  /** Every colour belongs to a key of the icon table, and exactly five table
      keys have no colour, so their icons draw in the inherited colour. */
  lemma ColorTableCoverage()
    ensures IconColors.Keys <= IconMap.Keys
    ensures IconMap.Keys == IconColors.Keys + UncoloredKeys
    ensures IconColors.Keys !! UncoloredKeys
  {
    TableKeys();
    ColorKeysAreIconKeys();
    KeySplit();
    KeysDisjoint();
  }

  /** Keys in the table draw their own icon; keys without a colour get none. */
  lemma IconExamples()
    ensures IconFor(Some("react")) == IconView(SiReact, Some("#61DAFB"), Some("#61DAFB"))
    ensures IconFor(Some("docker")) == IconView(SiDocker, None, None)
    ensures IconFor(Some("openai")).icon == Brain
    ensures IconFor(Some("rust")) == IconView(Code, None, Some(FallbackColor))
  {
    assert "rust" !in IconMap && "rust" !in IconColors;
    assert "docker" !in IconColors;
  }

  /** The card reads a property named `iconName`, which the skill record does
      not declare, so the key it sees is always `undefined`. */
  function CardIcon(s: Skill): IconView {
    IconFor(None)
  }

  /** Every skill card, the catalogue's included, draws the code icon in the
      fallback colour, whatever its record holds. */
  lemma EverySkillTakesFallback(s: Skill)
    ensures CardIcon(s) == IconView(Code, Some(FallbackColor), Some(FallbackColor))
    ensures forall i :: 0 <= i < |Catalogue.SKILLS| ==> CardIcon(Catalogue.SKILLS[i]).icon == Code
  {
  }
}
