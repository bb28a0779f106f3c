/**
 * The doctor profile screen (`app/doctor-details.jsx`): it receives a doctor
 * record through the route, shows an error view when there is none, and
 * otherwise shows the doctor's initials and a profile made of the record
 * merged with fixed mock details.
 *
 * The route's `doctor` parameter is JSON text; the model receives the record
 * it parses to, or `None` when the route has no parameters.
 */
module DoctorDetails {
  import opened Js

  /** `pieces.map(n => n[0])`: each piece's first character, `undefined` for
      an empty piece. */
  function FirstLetters(pieces: seq<string>): (r: seq<Value>)
    ensures |r| == |pieces|
    ensures forall k :: 0 <= k < |pieces| ==> (r[k].Undefined? <==> pieces[k] == [])
    ensures forall k :: 0 <= k < |pieces| && pieces[k] != [] ==> r[k] == Str([pieces[k][0]])
  {
    seq(|pieces|, k requires 0 <= k < |pieces| => CharAt(pieces[k], 0))
  }

  /** The avatar text, `name.split(' ').map(n => n[0]).join('')`: the first
      character of every word of the name, in order; the empty pieces that
      leading, trailing or repeated spaces make contribute nothing. */
  function Initials(name: string): (r: string)
    ensures r == WordStarts(name, true)
  {
    InitialsScan(name);
    JoinText(FirstLetters(Split(name, ' ')), "")
  }

  /** Reference definition of initials: scanning left to right, every
      character other than a space that opens the text or follows a space. */
  function WordStarts(s: string, afterSpace: bool): (r: string)
    ensures |r| <= |s|
    ensures ' ' !in r
    ensures forall c :: c in r ==> c in s
  {
    if s == [] then []
    else (if afterSpace && s[0] != ' ' then [s[0]] else []) + WordStarts(s[1..], s[0] == ' ')
  }

  /** `name.split(' ')[1]`: the second piece, `undefined` exactly for a
      name without a space. */
  function SecondWord(name: string): (r: Value)
    ensures r.Undefined? <==> ' ' !in name
    ensures r.Str? || r.Undefined?
    ensures r.Str? ==> ' ' !in r.s
  {
    var pieces := Split(name, ' ');
    NoOccurrences(name, ' ');
    if |pieces| > 1 then Str(pieces[1]) else Undefined
  }

  const DescriptionPrefix: string := "د. "
  const DescriptionMiddle: string := " متخصص في "
  const DescriptionSuffix: string := " ولديه خبرة واسعة في مجاله. يساعد المرضى في فهم احتياجاتهم النفسية والصحية، ويقدم استشارات متخصصة للأفراد والعائلات."

  /** The `description` template: the second word of the name and the
      specialty, each as `${...}` prints it. */
  function Description(name: string, specialty: Value): (r: string)
    ensures |r| > |DescriptionPrefix| + |DescriptionSuffix|
    ensures r[..|DescriptionPrefix|] == DescriptionPrefix
    ensures r[|r| - |DescriptionSuffix|..] == DescriptionSuffix
  {
    DescriptionPrefix + ToText(SecondWord(name)) + DescriptionMiddle + ToText(specialty) + DescriptionSuffix
  }

  const Education: string := "دكتوراه في الطب النفسي - جامعة محمد الخامس"
  const Certifications: seq<string> := ["شهادة في علم النفس السريري", "شهادة في الاستشارات الأسرية"]
  const Languages: seq<string> := ["العربية", "الفرنسية", "الإنجليزية"]
  const ResponseTime: string := "ساعة واحدة"
  const LoadErrorText: string := "خطأ في تحميل بيانات الطبيب"

  /** The keys the mock details set over the doctor's own fields. */
  const OverriddenKeys: set<string> :=
    {"description", "education", "certifications", "languages", "consultationStats", "contentStats"}

  /** The object literal's own properties, which follow the spread of the
      doctor and so win over the doctor's fields of the same names. */
  function Overrides(description: string, rating: Value): (r: map<string, Value>)
    ensures r.Keys == OverriddenKeys
    ensures r["description"] == Str(description)
    ensures r["consultationStats"].Obj? && "averageRating" in r["consultationStats"].fields
    ensures r["consultationStats"].fields["averageRating"] == rating
  {
    map[
      "description" := Str(description),
      "education" := Str(Education),
      "certifications" := Arr(Strs(Certifications)),
      "languages" := Arr(Strs(Languages)),
      "consultationStats" := Obj(map[
        "total" := Num("245"),
        "thisMonth" := Num("23"),
        "averageRating" := rating,
        "responseTime" := Str(ResponseTime)]),
      "contentStats" := Obj(map[
        "articles" := Num("15"),
        "videos" := Num("8"),
        "totalViews" := Num("12500"),
        "totalLikes" := Num("890")])]
  }

  /** `doctorDetails = { ...doctor, description, ..., contentStats }` for a
      record whose `name` is the string `name`. */
  function Details(fields: map<string, Value>, name: string): (d: map<string, Value>)
    ensures d.Keys == fields.Keys + OverriddenKeys
    ensures forall k :: k in fields && k !in OverriddenKeys ==> d[k] == fields[k]
    ensures d["description"] == Str(Description(name, Member(Obj(fields), "specialty").value))
    ensures d["consultationStats"].Obj? && "averageRating" in d["consultationStats"].fields
    ensures d["consultationStats"].fields["averageRating"] == Member(Obj(fields), "rating").value
  {
    fields + Overrides(Description(name, Member(Obj(fields), "specialty").value), Member(Obj(fields), "rating").value)
  }

  /** Whether React can render `v` as a child: text, numbers, booleans,
      null and undefined (the last three render as nothing) and arrays of
      such; a plain object makes React throw. */
  predicate Renderable(v: Value)
    ensures v.Obj? ==> !Renderable(v)
    ensures (v.Str? || v.Num? || v.Bool? || v.Null? || v.Undefined?) ==> Renderable(v)
    decreases v
  {
    match v
    case Obj(_) => false
    case Arr(items) => forall i :: 0 <= i < |items| ==> Renderable(items[i])
    case _ => true
  }

  /** The doctor's own fields the profile shows as `{doctor.<key>}`, besides
      `name`. */
  const ShownKeys: set<string> := {"specialty", "rating", "reviews", "experience", "location"}

  /** Every shown field that the record has can be rendered; a missing one
      renders as nothing. */
  predicate ShownFieldsRenderable(fields: map<string, Value>)
    ensures ShownKeys !! fields.Keys ==> ShownFieldsRenderable(fields)
    ensures ShownFieldsRenderable(fields) ==> forall k :: k in ShownKeys && k in fields ==> !fields[k].Obj?
  {
    forall k :: k in ShownKeys && k in fields ==> Renderable(fields[k])
  }

  /** What the screen renders: the error view, the profile, or nothing
      because rendering threw (a truthy record whose `name` is not a string
      has no `split`; a shown field holding an object is not a valid React
      child). */
  datatype DetailsView =
    | ErrorView(message: string)
    | Profile(initials: string, name: string, details: map<string, Value>)
    | RenderError

  /** The screen for the route's parsed `doctor` parameter (`None` when the
      route has no parameters, which makes `doctor` null). */
  function Render(doctorParam: Option<Value>): (v: DetailsView)
    ensures v.ErrorView? <==> doctorParam.None? || !Truthy(doctorParam.value)
    ensures v.ErrorView? ==> v.message == LoadErrorText
    ensures v.Profile? <==> (doctorParam.Some? && doctorParam.value.Obj?
                             && "name" in doctorParam.value.fields && doctorParam.value.fields["name"].Str?
                             && ShownFieldsRenderable(doctorParam.value.fields))
    ensures v.Profile? ==> (v.name == doctorParam.value.fields["name"].s
                            && v.initials == WordStarts(v.name, true)
                            && v.details == Details(doctorParam.value.fields, v.name))
  {
    if doctorParam.None? || !Truthy(doctorParam.value) then ErrorView(LoadErrorText)
    else
      var doctor := doctorParam.value;
      match Member(doctor, "name")
      case Some(Str(name)) =>
        if ShownFieldsRenderable(doctor.fields) then Profile(Initials(name), name, Details(doctor.fields, name))
        else RenderError
      case _ => RenderError
  }

  /** `[x, ...xs].join('')` is `x`'s text followed by the rest's. */
  lemma JoinEmptyCons(x: Value, xs: seq<Value>)
    ensures JoinText([x] + xs, "") == (if x.Undefined? || x.Null? then "" else ToText(x)) + JoinText(xs, "")
  {
    if xs != [] {
      assert ([x] + xs)[1..] == xs;
    }
  }

  lemma FirstLettersCons(p: string, ps: seq<string>)
    ensures FirstLetters([p] + ps) == [CharAt(p, 0)] + FirstLetters(ps)
  {
  }

  /** Both halves of the induction: the initials of all pieces, and of all
      pieces but the first. */
  lemma {:induction false} InitialsScan(s: string)
    ensures JoinText(FirstLetters(Split(s, ' ')), "") == WordStarts(s, true)
    ensures JoinText(FirstLetters(Split(s, ' ')[1..]), "") == WordStarts(s, false)
  {
    if s != [] {
      var rest := Split(s[1..], ' ');
      InitialsScan(s[1..]);
      if s[0] == ' ' {
        assert Split(s, ' ') == [[]] + rest;
        assert Split(s, ' ')[1..] == rest;
        FirstLettersCons([], rest);
        JoinEmptyCons(Undefined, FirstLetters(rest));
      } else {
        assert Split(s, ' ') == [[s[0]] + rest[0]] + rest[1..];
        assert Split(s, ' ')[1..] == rest[1..];
        FirstLettersCons([s[0]] + rest[0], rest[1..]);
        JoinEmptyCons(Str([s[0]]), FirstLetters(rest[1..]));
      }
    }
  }
}

/** What the profile screen promises about the texts it derives from the
    doctor's name and about the merged record. */
module DoctorDetailsFacts {
  import opened Js
  import opened DoctorDetails

  /** Whether a scan that has consumed `a`, having started in state
      `afterSpace`, stands right after a space. */
  function EndsAfterSpace(a: string, afterSpace: bool): bool
  {
    if a == [] then afterSpace else a[|a| - 1] == ' '
  }

  /** One step of the word-start scan. */
  lemma WordStartsStep(s: string, afterSpace: bool)
    requires s != []
    ensures WordStarts(s, afterSpace) == (if afterSpace && s[0] != ' ' then [s[0]] else []) + WordStarts(s[1..], s[0] == ' ')
  {
  }

  /** The word-start scan of a concatenation continues where the scan of the
      first part stopped. */
  lemma {:induction false} WordStartsAppend(a: string, b: string, afterSpace: bool)
    ensures WordStarts(a + b, afterSpace) == WordStarts(a, afterSpace) + WordStarts(b, EndsAfterSpace(a, afterSpace))
    decreases a
  {
    if a == [] {
      assert a + b == b;
    } else {
      var head := if afterSpace && a[0] != ' ' then [a[0]] else [];
      var next := a[0] == ' ';
      var rest := a[1..];
      var ab := a + b;
      assert ab[0] == a[0] && ab[1..] == rest + b;
      var e := EndsAfterSpace(a, afterSpace);
      assert EndsAfterSpace(rest, next) == e by {
        if rest != [] {
          assert rest[|rest| - 1] == a[|a| - 1];
        }
      }
      calc {
        WordStarts(ab, afterSpace);
        == { WordStartsStep(ab, afterSpace); }
        head + WordStarts(rest + b, next);
        == { WordStartsAppend(rest, b, next); }
        head + (WordStarts(rest, next) + WordStarts(b, e));
        == (head + WordStarts(rest, next)) + WordStarts(b, e);
        == { WordStartsStep(a, afterSpace); }
        WordStarts(a, afterSpace) + WordStarts(b, e);
      }
    }
  }

  /** A space resets the scan, whatever came before it. */
  lemma SpaceResets(b: string, afterSpace: bool)
    ensures WordStarts(" " + b, afterSpace) == WordStarts(b, true)
  {
    assert (" " + b)[1..] == b;
  }

  /** A doubled space between two parts of a name gives the same initials
      as a single one. */
  lemma {:induction false} DoubleSpace(a: string, b: string)
    ensures Initials(a + "  " + b) == Initials(a + " " + b)
  {
    var f := EndsAfterSpace(a, true);
    assert a + "  " + b == a + (" " + (" " + b));
    assert a + " " + b == a + (" " + b);
    WordStartsAppend(a, " " + (" " + b), true);
    WordStartsAppend(a, " " + b, true);
    SpaceResets(" " + b, f);
    SpaceResets(b, true);
    SpaceResets(b, f);
  }

  /** A leading or a trailing space does not change the initials. */
  lemma {:induction false} OuterSpaces(a: string)
    ensures Initials(" " + a) == Initials(a)
    ensures Initials(a + " ") == Initials(a)
  {
    SpaceResets(a, true);
    WordStartsAppend(a, " ", true);
    SpaceResets([], EndsAfterSpace(a, true));
    assert " " + [] == " ";
  }

  /** A text without the separator is a single piece. */
  lemma {:induction false} SplitWhole(s: string, sep: char)
    requires sep !in s
    ensures Split(s, sep) == [s]
  {
    if s != [] {
      SplitWhole(s[1..], sep);
      assert [s[0]] + s[1..] == s;
    }
  }

  /** A first piece without the separator is split off whole. */
  lemma {:induction false} SplitFirstPiece(a: string, t: string, sep: char)
    requires sep !in a
    ensures Split(a + [sep] + t, sep) == [a] + Split(t, sep)
  {
    var s := a + [sep] + t;
    if a == [] {
      assert s == [sep] + t && s[1..] == t;
    } else {
      assert s[1..] == a[1..] + [sep] + t;
      SplitFirstPiece(a[1..], t, sep);
      assert [a[0]] + a[1..] == a;
    }
  }

  /** For `"<first> <second>"`, with or without more words after, the
      second piece is `<second>`, and the description names `<second>` and
      the specialty between its fixed texts. */
  lemma SecondWordOf(first: string, second: string, more: string, specialty: Value)
    requires ' ' !in first && ' ' !in second
    ensures SecondWord(first + " " + second) == Str(second)
    ensures SecondWord(first + " " + second + " " + more) == Str(second)
    ensures Description(first + " " + second, specialty)
      == DescriptionPrefix + second + DescriptionMiddle + ToText(specialty) + DescriptionSuffix
    ensures Description(first + " " + second + " " + more, specialty)
      == DescriptionPrefix + second + DescriptionMiddle + ToText(specialty) + DescriptionSuffix
  {
    SplitFirstPiece(first, second, ' ');
    SplitWhole(second, ' ');
    assert first + " " + second + " " + more == first + [' '] + (second + [' '] + more);
    SplitFirstPiece(first, second + [' '] + more, ' ');
    SplitFirstPiece(second, more, ' ');
  }

  /** A one-word name has no second piece, and the description then reads
      "undefined" where the name should be. */
  lemma OneWordName(name: string, specialty: Value)
    requires ' ' !in name
    ensures SecondWord(name) == Undefined
    ensures Description(name, specialty) == DescriptionPrefix + "undefined" + DescriptionMiddle + ToText(specialty) + DescriptionSuffix
  {
    SplitWhole(name, ' ');
  }

  /** Without route parameters, or with a falsy record, only the error view
      is shown. */
  lemma MissingDoctorShowsError(doctor: Value)
    requires !Truthy(doctor)
    ensures Render(None) == ErrorView(LoadErrorText)
    ensures Render(Some(doctor)) == ErrorView(LoadErrorText)
  {
  }

  /** A record with a string name and an object in a shown field, such as
      `specialty` or `rating`, makes React throw instead of showing the
      profile. */
  lemma ObjectFieldThrows(fields: map<string, Value>, key: string)
    requires "name" in fields && fields["name"].Str?
    requires key in ShownKeys && key in fields && fields[key].Obj?
    ensures Render(Some(Obj(fields))) == RenderError
  {
  }

  /** A record holding nothing but a string name still shows the profile:
      the missing fields render as nothing. */
  lemma NameOnlyRenders(name: string)
    ensures Render(Some(Obj(map["name" := Str(name)]))).Profile?
  {
  }
}
