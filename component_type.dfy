/** ComponentType: an immutable value whose id must match `[a-z][a-z0-9]*(-[a-z0-9]+)*`, whose
    description must not be blank, and whose notes are optional. */
module ComponentTypes {
  import opened Common

  datatype ComponentType = ComponentType(id: string, description: Option<string>, notes: Option<string>)

  predicate IsLower(c: char) {
    'a' <= c <= 'z'
  }

  predicate IsLowerOrDigit(c: char) {
    IsLower(c) || '0' <= c <= '9'
  }

  /** Recognises `[a-z0-9]*(-[a-z0-9]+)*`, the part of the id pattern after the first letter:
      each step consumes either one `[a-z0-9]` or a `-` together with the `[a-z0-9]` after it. */
  predicate MatchesTail(s: string)
    decreases |s|
  {
    || s == []
    || (IsLowerOrDigit(s[0]) && MatchesTail(s[1..]))
    || (s[0] == '-' && |s| > 1 && IsLowerOrDigit(s[1]) && MatchesTail(s[2..]))
  }

  /** The @Pattern constraint on the id: the whole string matches `[a-z][a-z0-9]*(-[a-z0-9]+)*`. */
  predicate MatchesIdPattern(s: string) {
    |s| > 0 && IsLower(s[0]) && MatchesTail(s[1..])
  }

  /** The same language described character by character: a lowercase letter first, then only
      lowercase letters, digits and hyphens, no hyphen last and no two hyphens in a row. */
  predicate WellFormedId(s: string) {
    && |s| > 0
    && IsLower(s[0])
    && (forall i :: 0 <= i < |s| ==> IsLowerOrDigit(s[i]) || s[i] == '-')
    && s[|s| - 1] != '-'
    && (forall i :: 0 <= i < |s| - 1 && s[i] == '-' ==> s[i + 1] != '-')
  }

  predicate TailShape(s: string) {
    && (forall i :: 0 <= i < |s| ==> IsLowerOrDigit(s[i]) || s[i] == '-')
    && (s != [] ==> s[|s| - 1] != '-')
    && (forall i :: 0 <= i < |s| - 1 && s[i] == '-' ==> s[i + 1] != '-')
  }

  lemma {:induction false} MatchesTailIffShape(s: string)
    ensures MatchesTail(s) <==> TailShape(s)
    decreases |s|
  {
    if s != [] {
      if IsLowerOrDigit(s[0]) {
        MatchesTailIffShape(s[1..]);
        assert TailShape(s) ==> TailShape(s[1..]) by {
          if TailShape(s) {
            forall i | 0 <= i < |s[1..]| - 1 && s[1..][i] == '-' ensures s[1..][i + 1] != '-' {
              assert s[i + 1] == '-';
            }
          }
        }
      } else if s[0] == '-' && |s| > 1 && IsLowerOrDigit(s[1]) {
        MatchesTailIffShape(s[2..]);
        assert TailShape(s) ==> TailShape(s[2..]) by {
          if TailShape(s) {
            forall i | 0 <= i < |s[2..]| - 1 && s[2..][i] == '-' ensures s[2..][i + 1] != '-' {
              assert s[i + 2] == '-';
            }
          }
        }
        if TailShape(s[2..]) {
          forall i | 0 <= i < |s| - 1 && s[i] == '-' ensures s[i + 1] != '-' {
            if i >= 2 {
              assert s[2..][i - 2] == '-';
            }
          }
        }
      } else if s[0] == '-' {
        assert !TailShape(s) by {
          if |s| > 1 {
            assert s[1] == '-' || !(IsLowerOrDigit(s[1]) || s[1] == '-');
          }
        }
      } else {
        assert !TailShape(s);
      }
    }
  }

  /** The id pattern accepts exactly the well-formed ids: both directions. */
  lemma IdPatternIffWellFormed(s: string)
    ensures MatchesIdPattern(s) <==> WellFormedId(s)
  {
    if |s| > 0 && IsLower(s[0]) {
      MatchesTailIffShape(s[1..]);
      if TailShape(s[1..]) {
        forall i | 0 <= i < |s| - 1 && s[i] == '-' ensures s[i + 1] != '-' {
          assert i >= 1;
          assert s[1..][i - 1] == '-';
        }
      }
      if WellFormedId(s) {
        assert TailShape(s[1..]) by {
          forall i | 0 <= i < |s[1..]| - 1 && s[1..][i] == '-' ensures s[1..][i + 1] != '-' {
            assert s[i + 1] == '-';
          }
        }
      }
    }
  }

  /** A matching id never starts or ends with a hyphen and never holds two hyphens in a row. */
  lemma ValidIdHyphens(s: string)
    requires MatchesIdPattern(s)
    ensures s[0] != '-' && s[|s| - 1] != '-'
    ensures forall i :: 0 <= i < |s| - 1 && s[i] == '-' ==> s[i + 1] != '-'
  {
    IdPatternIffWellFormed(s);
  }

  /** Bean validation of a component type: id matches the pattern (which makes it non-blank) and the
      description is present and not blank in the sense of @NotBlank; notes are unconstrained. */
  predicate Valid(t: ComponentType) {
    && MatchesIdPattern(t.id)
    && t.description.Some? && !TrimsToEmpty(t.description.value)
  }

  /** A valid type's id passes @NotBlank too: its first character is a letter, above U+0020. */
  lemma ValidIdIsNotBlank(t: ComponentType)
    requires Valid(t)
    ensures !TrimsToEmpty(t.id)
  {
    assert t.id[0] > ' ';
  }
}
