/** The roster's records: a member and its role. */
module Types {

  /**
   * The twelve role literals a member may carry: six English names and their
   * six Arabic counterparts, which are distinct values of the same type.
   */
  datatype Role =
    | Tank | Damage | Support | Captain | Specialist | Recruit
    | TankAr | DamageAr | SupportAr | CaptainAr | SpecialistAr | RecruitAr

  /** The string literal each role stands for. */
  function RoleName(r: Role): (s: string)
    ensures s != []
  {
    match r
    case Tank => "Tank"
    case Damage => "Damage"
    case Support => "Support"
    case Captain => "Captain"
    case Specialist => "Specialist"
    case Recruit => "Recruit"
    case TankAr => "مدرع"
    case DamageAr => "مهاجم"
    case SupportAr => "دعم"
    case CaptainAr => "قائد"
    case SpecialistAr => "متخصص"
    case RecruitAr => "مستجد"
  }

  predicate IsEnglish(r: Role) {
    r.Tank? || r.Damage? || r.Support? || r.Captain? || r.Specialist? || r.Recruit?
  }

  /** The Arabic role that corresponds to `r` (an Arabic role is its own). */
  function ArabicOf(r: Role): (a: Role)
    ensures !IsEnglish(a)
    ensures !IsEnglish(r) ==> a == r
  {
    match r
    case Tank => TankAr
    case Damage => DamageAr
    case Support => SupportAr
    case Captain => CaptainAr
    case Specialist => SpecialistAr
    case Recruit => RecruitAr
    case _ => r
  }

  /** Distinct roles have distinct literals, so a role is determined by its string. */
  lemma RoleNameInjective(a: Role, b: Role)
    ensures RoleName(a) == RoleName(b) ==> a == b
  {
  }

  /** A roster entry. `level` is the skill rating the form's slider sets. */
  datatype Member = Member(id: string, name: string, role: Role, level: int)

  /** The identifiers of a roster, in order. */
  function Ids(members: seq<Member>): (ids: seq<string>)
    ensures |ids| == |members|
    ensures forall i :: 0 <= i < |members| ==> ids[i] == members[i].id
  {
    seq(|members|, i requires 0 <= i < |members| => members[i].id)
  }

  /** No two roster entries share an identifier. */
  predicate UniqueIds(members: seq<Member>) {
    forall i, j :: 0 <= i < j < |members| ==> members[i].id != members[j].id
  }
}
