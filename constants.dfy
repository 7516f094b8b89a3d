/** The role tables of the UI: icons, the role picker's choices, and role labels per language. */
module Constants {
  import opened Types

  /** The icon drawn for a role. */
  datatype Icon = Shield | Sword | Heart | Crown | Zap | User

  /** The icon table, keyed by the raw role string; only the English names have an entry. */
  const RoleIcons: map<string, Icon> := map[
    "Tank" := Shield, "Damage" := Sword, "Support" := Heart,
    "Captain" := Crown, "Specialist" := Zap, "Recruit" := User
  ]

  /** The choices the add-member form offers, in order. */
  const InitialRoles: seq<Role> := [Tank, Damage, Support, Captain, Specialist, Recruit]

  /** The two UI languages. */
  datatype Lang = Ar | En

  /** Arabic role labels, keyed by the English role name. */
  const ArRoleLabels: map<string, string> := map[
    "Tank" := "مدرع", "Damage" := "مهاجم", "Support" := "دعم",
    "Captain" := "قائد", "Specialist" := "متخصص", "Recruit" := "مستجد"
  ]

  /** English role labels, keyed by the English role name. */
  const EnRoleLabels: map<string, string> := map[
    "Tank" := "Tank", "Damage" := "Damage", "Support" := "Support",
    "Captain" := "Captain", "Specialist" := "Specialist", "Recruit" := "Recruit"
  ]

  /** The role-label table of the current language (`t.roles`). */
  function RoleLabels(lang: Lang): (table: map<string, string>)
    ensures table.Keys == RoleIcons.Keys
  {
    match lang
    case Ar => ArRoleLabels
    case En => EnRoleLabels
  }

  /**
   * Every choice of the role picker has an icon and a label in both
   * languages, and the picker offers exactly the English roles, once each.
   */
  lemma InitialRolesCovered()
    ensures forall r :: r in InitialRoles <==> IsEnglish(r)
    ensures forall i, j :: 0 <= i < j < |InitialRoles| ==> InitialRoles[i] != InitialRoles[j]
    ensures forall r, lang :: r in InitialRoles ==> RoleName(r) in RoleIcons && RoleName(r) in RoleLabels(lang)
  {
    TableKeys();
  }

  /** The keys of every table are exactly the English role names. */
  lemma TableKeys()
    ensures forall r :: RoleName(r) in RoleIcons <==> IsEnglish(r)
    ensures forall r, lang :: RoleName(r) in RoleLabels(lang) <==> IsEnglish(r)
  {
  }
}
