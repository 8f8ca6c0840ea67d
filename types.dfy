/** The records shared by the survey store, the admin forms and the user-facing
    filters (src/lib/types.ts). */
module Types {

  datatype Option<+T> = None | Some(value: T)

  /** An upper bound that may be `Infinity`, as `maxWalletBalance` and the chart
      bins' `max` may be. */
  datatype Bound = Finite(value: real) | Infinity {
    /** `x <= bound` */
    predicate Admits(x: real) {
      match this
      case Finite(v) => x <= v
      case Infinity => true
    }
    /** The bound lies strictly above `x`: `x < bound`. */
    predicate Above(x: real) {
      match this
      case Finite(v) => x < v
      case Infinity => true
    }
  }

  datatype QuestionType = MultipleChoice | Checkbox | ShortAnswer | Email | Country | Number

  datatype Question = Question(
    id: string,
    text: string,
    qtype: QuestionType,
    options: Option<seq<string>>,   // `options?: string[]`
    required: bool)

  /** A reward is exactly one of the three variants, and every variant carries
      `maxUsers: number | null`. */
  datatype Reward =
    | Points(points: int, maxUsers: Option<int>)
    | Pool(supply: int, amountPerUser: real, tokenType: string, totalValue: real, maxUsers: Option<int>)
    | Prize(numberOfPrizes: int, description: string, totalValue: real, maxUsers: Option<int>)

  /** `RewardType`: 'points' | 'pool' | 'prize'. */
  datatype RewardType = PointsType | PoolType | PrizeType

  /** The closed set 'all' | 'non-zero' | 'low' | 'medium' | 'high'. */
  datatype WalletBalanceTarget = AllBalances | NonZero | Low | Medium | High {
    /** The string the target is stored and sent as. */
    function Name(): string {
      match this
      case AllBalances => "all"
      case NonZero => "non-zero"
      case Low => "low"
      case Medium => "medium"
      case High => "high"
    }
  }

  datatype TargetingCriteria = TargetAll | TargetCountries(countries: seq<string>)

  datatype Survey = Survey(
    id: string,
    title: string,
    description: string,
    questions: seq<Question>,
    reward: Reward,
    rewardsClaimed: int,
    walletBalanceTarget: WalletBalanceTarget,
    minWalletBalance: real,
    maxWalletBalance: Bound)

  /** `AdminSurvey extends Survey` with `isActive` and `targeting`; its
      `rewardsClaimed` is the base survey's. */
  datatype AdminSurvey = AdminSurvey(base: Survey, isActive: bool, targeting: TargetingCriteria) {
    function Id(): string { base.id }
    function Claimed(): int { base.rewardsClaimed }
    function SurveyReward(): Reward { base.reward }
  }
}
