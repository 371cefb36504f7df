/**
 * Values shared by the root component, the banner and the admin form:
 * the banner record itself and the small wrappers around it.
 */
module BannerTypes {

  /** An optional value; `None` stands for an absent key or for `null`. */
  datatype Option<+T> = None | Some(value: T) {
    function GetOr(default: T): T {
      match this
      case Some(v) => v
      case None => default
    }
  }

  /**
   * A JavaScript number as far as the banner cares: an integer, or any
   * value for which `Number.isInteger` is false (a fraction, NaN, an
   * infinity).
   */
  datatype Num = Int(value: int) | NonInteger

  /** `BannerData`: the record the backend stores and the form edits. */
  datatype BannerData = BannerData(
    id: Option<int>,
    description: string,
    link: string,
    timer: Num,
    isVisible: bool)

  /** How a promise returned by a callback settles. */
  datatype Settled = Resolved | Rejected
}
