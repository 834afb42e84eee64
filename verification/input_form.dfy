/**
 * The search form: on submit both fields are trimmed; an empty field makes
 * the submit do nothing, a field shorter than two UTF-16 code units raises
 * an alert, and otherwise the trimmed values start a search.
 */
module InputForm {
  import opened Text

  /** The least accepted length of either field, in UTF-16 code units. */
  const MinLength: nat := 2
  const NameTooShort: string := "El nombre del negocio debe tener al menos 2 caracteres"
  const CityTooShort: string := "La ciudad debe tener al menos 2 caracteres"

  /** What a submit does. */
  datatype Submission =
    | Ignored  // nothing happens
    | Alerted(message: string)  // an alert is shown and no search starts
    | Searched(name: string, city: string)  // the search starts with these values

  function Submit(name: string, city: string): (r: Submission)
    ensures r.Ignored? <==> AllSpace(name) || AllSpace(city)
    ensures r == Alerted(NameTooShort) <==>
      !AllSpace(name) && !AllSpace(city) && Utf16Length(Trim(name)) < MinLength
    ensures r == Alerted(CityTooShort) <==>
      !AllSpace(name) && !AllSpace(city) && Utf16Length(Trim(name)) >= MinLength
      && Utf16Length(Trim(city)) < MinLength
    ensures r.Searched? <==>
      !AllSpace(name) && !AllSpace(city)
      && Utf16Length(Trim(name)) >= MinLength && Utf16Length(Trim(city)) >= MinLength
    ensures r.Alerted? ==> r.message == NameTooShort || r.message == CityTooShort
    ensures r.Searched? ==>
      r.name == Trim(name) && r.city == Trim(city)
      && Utf16Length(r.name) >= MinLength && Utf16Length(r.city) >= MinLength
  {
    TrimEmpty(name);
    TrimEmpty(city);
    var n := Trim(name);
    var c := Trim(city);
    if n == [] || c == [] then Ignored
    else if Utf16Length(n) < MinLength then Alerted(NameTooShort)
    else if Utf16Length(c) < MinLength then Alerted(CityTooShort)
    else Searched(n, c)
  }

  /** The values a search starts with are already clean: submitting them
      again starts the same search. */
  lemma SubmitStable(name: string, city: string)
    requires Submit(name, city).Searched?
    ensures var r := Submit(name, city);
      Submit(r.name, r.city) == r
  {
    var r := Submit(name, city);
    TrimIdempotent(name);
    TrimIdempotent(city);
    TrimEmpty(r.name);
    TrimEmpty(r.city);
  }

  /** A one-character name of the Basic Multilingual Plane is too short,
      while one character outside it counts as two code units and passes. */
  lemma OneCharacterName(c: char, city: string)
    requires !IsJsSpace(c)
    requires !AllSpace(city) && Utf16Length(Trim(city)) >= MinLength
    ensures c as int <= 0xFFFF ==> Submit([c], city) == Alerted(NameTooShort)
    ensures c as int > 0xFFFF ==> Submit([c], city) == Searched([c], Trim(city))
  {
    TrimUnchanged([c]);
    assert Utf16Length([c]) == (if c as int > 0xFFFF then 2 else 1) + Utf16Length([]);
  }
}
