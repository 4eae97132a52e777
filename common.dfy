/** Values shared by every stage of the quotation: an optional value, the
    failures the handler can raise, and a result that carries one of them. */
module Common {

  datatype Option<+T> = None | Some(value: T)

  /** The exceptions the quotation handler can raise on its own inputs. */
  datatype Error =
    /** `STATE_MULTIPLIERS[state]` for a state outside the table (a KeyError). */
    | UnknownState(state: string)
    /** `pd.Series(importances, index=feature_columns)` with lengths that differ (a ValueError). */
    | LengthMismatch(values: nat, labels: nat)

  datatype Result<+T> = Ok(value: T) | Failure(error: Error)

  /** `s.startswith(prefix)`. */
  predicate StartsWith(s: string, prefix: string) {
    |prefix| <= |s| && s[..|prefix|] == prefix
  }
}
