/** What the posted body promises the server: where each value goes and under which key. */
module FormDataFacts {
  import opened Wrappers
  import opened Text
  import opened ApplicationTypes
  import opened FormDataEncoding

  /** Entries that each append exactly one part append them in order. */
  lemma {:induction false} EntriesPartsOnePerEntry(es: seq<(string, Value)>)
    requires forall k :: 0 <= k < |es| ==> |EntryParts(es[k].0, es[k].1)| == 1
    ensures |EntriesParts(es)| == |es|
    ensures forall k :: 0 <= k < |es| ==> EntriesParts(es)[k] == EntryParts(es[k].0, es[k].1)[0]
  {
    if es != [] {
      var init, last := es[..|es| - 1], es[|es| - 1];
      assert forall k :: 0 <= k < |init| ==> init[k] == es[k];
      EntriesPartsOnePerEntry(init);
      assert EntriesParts(es) == EntriesParts(init) + EntryParts(last.0, last.1);
    }
  }

  lemma {:induction false} LegacyEntriesPartsOnePerEntry(es: seq<(string, Value)>)
    requires forall k :: 0 <= k < |es| ==> |LegacyEntryParts(es[k].0, es[k].1)| == 1
    ensures |LegacyEntriesParts(es)| == |es|
    ensures forall k :: 0 <= k < |es| ==> LegacyEntriesParts(es)[k] == LegacyEntryParts(es[k].0, es[k].1)[0]
  {
    if es != [] {
      var init, last := es[..|es| - 1], es[|es| - 1];
      assert forall k :: 0 <= k < |init| ==> init[k] == es[k];
      LegacyEntriesPartsOnePerEntry(init);
      assert LegacyEntriesParts(es) == LegacyEntriesParts(init) + LegacyEntryParts(last.0, last.1);
    }
  }

  /** `String(value)` of a nullable link: the link, or "null". */
  function NullableText(o: Option<string>): string {
    match o
    case None => "null"
    case Some(s) => s
  }

  /** The sixteen top-level parts carry the scalar keys in declaration order. */
  lemma TopPartsKeys(d: Draft)
    ensures |EntriesParts(Entries(d))| == 16
    ensures forall k :: 0 <= k < 16 ==> EntriesParts(Entries(d))[k].key == TopKeys[k]
  {
    var es := Entries(d);
    assert es[..17][..16] == es[..16];
    assert es[..18] == es;
    assert EntriesParts(es) == EntriesParts(es[..16]);
    EntriesPartsOnePerEntry(es[..16]);
  }

  /** Each of the sixteen top-level parts is the one part its scalar entry appends. */
  lemma TopPartIsEntryPart(d: Draft)
    ensures |EntriesParts(Entries(d))| == 16
    ensures forall k :: 0 <= k < 16 ==> EntriesParts(Entries(d))[k] == EntryParts(Entries(d)[k].0, Entries(d)[k].1)[0]
  {
    var es := Entries(d);
    var head := es[..16];
    assert es[..17][..16] == head;
    assert es[..18] == es;
    assert EntriesParts(es) == EntriesParts(head);
    EntriesPartsOnePerEntry(head);
  }

  /** The parts of the job fields that are not catalog ids, the CV among them. */
  lemma JobScalarParts(d: Draft)
    ensures var tp := EntriesParts(Entries(d));
      && |tp| == 16
      && tp[0] == Text("job_title", d.jobTitle) && tp[1] == Text("company_name", d.companyName)
      && tp[12] == (if d.cv.Some? then Blob("cv", d.cv.value) else Text("cv", "null"))
      && tp[13] == Text("monthly_expected_salary", d.monthlyExpectedSalary)
  {
    var es := Entries(d);
    TopPartIsEntryPart(d);
    assert EntriesParts(es)[0] == EntryParts(es[0].0, es[0].1)[0];
    assert EntriesParts(es)[1] == EntryParts(es[1].0, es[1].1)[0];
    assert EntriesParts(es)[12] == EntryParts(es[12].0, es[12].1)[0];
    assert EntriesParts(es)[13] == EntryParts(es[13].0, es[13].1)[0];
  }

  /** The parts of the applicant's names and e-mail. */
  lemma ApplicantNameParts(d: Draft)
    ensures var tp := EntriesParts(Entries(d));
      && |tp| == 16
      && tp[3] == Text("applicant_names", d.applicantNames)
      && tp[4] == Text("applicant_last_names", d.applicantLastNames)
      && tp[5] == Text("applicant_email", d.applicantEmail)
  {
    var es := Entries(d);
    TopPartIsEntryPart(d);
    assert EntriesParts(es)[3] == EntryParts(es[3].0, es[3].1)[0];
    assert EntriesParts(es)[4] == EntryParts(es[4].0, es[4].1)[0];
    assert EntriesParts(es)[5] == EntryParts(es[5].0, es[5].1)[0];
  }

  /** The parts of the applicant's phone and links; a missing link is sent as "null". */
  lemma ApplicantContactParts(d: Draft)
    ensures var tp := EntriesParts(Entries(d));
      && |tp| == 16
      && tp[6] == Text("applicant_phone", d.applicantPhone)
      && tp[7] == Text("applicant_linkedin", NullableText(d.applicantLinkedin))
      && tp[8] == Text("applicant_portfolio_link", NullableText(d.applicantPortfolioLink))
  {
    var es := Entries(d);
    TopPartIsEntryPart(d);
    assert EntriesParts(es)[6] == EntryParts(es[6].0, es[6].1)[0];
    assert EntriesParts(es)[7] == EntryParts(es[7].0, es[7].1)[0];
    assert EntriesParts(es)[8] == EntryParts(es[8].0, es[8].1)[0];
  }

  /** The parts of the applicant's country, city and address. */
  lemma ApplicantPlaceParts(d: Draft)
    ensures var tp := EntriesParts(Entries(d));
      && |tp| == 16
      && tp[9] == Text("applicant_country", d.applicantCountry)
      && tp[10] == Text("applicant_city", d.applicantCity)
      && tp[11] == Text("applicant_address", d.applicantAddress)
  {
    var es := Entries(d);
    TopPartIsEntryPart(d);
    assert EntriesParts(es)[9] == EntryParts(es[9].0, es[9].1)[0];
    assert EntriesParts(es)[10] == EntryParts(es[10].0, es[10].1)[0];
    assert EntriesParts(es)[11] == EntryParts(es[11].0, es[11].1)[0];
  }

  /**
   * The newer body opens with sixteen parts, one per scalar key in
   * declaration order: the texts as typed, a null link as "null", and the
   * CV as a file, or the text "null" when there is none. No part carries
   * the lists whole.
   */
  lemma TopLevelParts(d: Draft)
    ensures var tp := EntriesParts(Entries(d));
      && |tp| == 16
      && tp[0] == Text("job_title", d.jobTitle) && tp[1] == Text("company_name", d.companyName)
      && tp[3] == Text("applicant_names", d.applicantNames)
      && tp[4] == Text("applicant_last_names", d.applicantLastNames)
      && tp[5] == Text("applicant_email", d.applicantEmail)
      && tp[6] == Text("applicant_phone", d.applicantPhone)
      && tp[7] == Text("applicant_linkedin", NullableText(d.applicantLinkedin))
      && tp[8] == Text("applicant_portfolio_link", NullableText(d.applicantPortfolioLink))
      && tp[9] == Text("applicant_country", d.applicantCountry)
      && tp[10] == Text("applicant_city", d.applicantCity)
      && tp[11] == Text("applicant_address", d.applicantAddress)
      && tp[12] == (if d.cv.Some? then Blob("cv", d.cv.value) else Text("cv", "null"))
      && tp[13] == Text("monthly_expected_salary", d.monthlyExpectedSalary)
  {
    JobScalarParts(d);
    ApplicantNameParts(d);
    ApplicantContactParts(d);
    ApplicantPlaceParts(d);
  }

  /** The three catalog ids go out as decimal text that reads back as the id. */
  lemma TopLevelIds(d: Draft)
    ensures var tp := EntriesParts(Entries(d));
      && |tp| == 16
      && tp[2].Text? && AllDigits(tp[2].text) && DigitsValue(tp[2].text) == d.employmentTypeId
      && tp[14].Text? && AllDigits(tp[14].text) && DigitsValue(tp[14].text) == d.availabilityId
      && tp[15].Text? && AllDigits(tp[15].text) && DigitsValue(tp[15].text) == d.workModalityId
  {
    var es := Entries(d);
    TopPartIsEntryPart(d);
    assert EntriesParts(es)[2] == EntryParts(es[2].0, es[2].1)[0];
    assert EntriesParts(es)[14] == EntryParts(es[14].0, es[14].1)[0];
    assert EntriesParts(es)[15] == EntryParts(es[15].0, es[15].1)[0];
    DigitsValueOfNatToString(d.employmentTypeId);
    DigitsValueOfNatToString(d.availabilityId);
    DigitsValueOfNatToString(d.workModalityId);
  }

  lemma {:induction false} EducationsPartsLength(es: seq<Education>)
    ensures |EducationsParts(es)| == 5 * |es|
  {
    if es != [] {
      EducationsPartsLength(es[..|es| - 1]);
    }
  }

  lemma {:induction false} ExperiencesPartsLength(xs: seq<Experience>)
    ensures |ExperiencesParts(xs)| == 7 * |xs|
  {
    if xs != [] {
      ExperiencesPartsLength(xs[..|xs| - 1]);
    }
  }

  /** Field `j` of education `i` is part `5i + j` of the education block. */
  lemma {:induction false} EducationsPartsAt(es: seq<Education>, i: nat, j: nat)
    requires i < |es| && j < 5
    ensures |EducationsParts(es)| == 5 * |es|
    ensures EducationsParts(es)[5 * i + j] == EducationParts(i, es[i])[j]
  {
    EducationsPartsLength(es);
    var prefix := es[..|es| - 1];
    EducationsPartsLength(prefix);
    if i < |es| - 1 {
      EducationsPartsAt(prefix, i, j);
    }
  }

  /** Field `j` of experience `i` is part `7i + j` of the experience block. */
  lemma {:induction false} ExperiencesPartsAt(xs: seq<Experience>, i: nat, j: nat)
    requires i < |xs| && j < 7
    ensures |ExperiencesParts(xs)| == 7 * |xs|
    ensures ExperiencesParts(xs)[7 * i + j] == ExperienceParts(i, xs[i])[j]
  {
    ExperiencesPartsLength(xs);
    var prefix := xs[..|xs| - 1];
    ExperiencesPartsLength(prefix);
    if i < |xs| - 1 {
      ExperiencesPartsAt(prefix, i, j);
    }
  }

  /** The newer body is the sixteen top-level parts, then the education block, then the experience block. */
  lemma FormDataBlocks(d: Draft)
    ensures var parts := FormDataOf(d); var n := |d.educations|;
      && |EntriesParts(Entries(d))| == 16
      && |parts| == 16 + 5 * n + 7 * |d.experiences|
      && parts[..16] == EntriesParts(Entries(d))
      && parts[16..16 + 5 * n] == EducationsParts(d.educations)
      && parts[16 + 5 * n..] == ExperiencesParts(d.experiences)
  {
    TopPartsKeys(d);
    EducationsPartsLength(d.educations);
    ExperiencesPartsLength(d.experiences);
  }

  /** The newer body has 16 + 5N + 7M parts for N educations and M experiences. */
  lemma FormDataLength(d: Draft)
    ensures |FormDataOf(d)| == 16 + 5 * |d.educations| + 7 * |d.experiences|
  {
    FormDataBlocks(d);
  }

  /** Field `j` of education `i` is part 16 + 5i + j, under the key `educations[i][<field j>]`. */
  lemma EducationPartAt(d: Draft, i: nat, j: nat)
    requires i < |d.educations| && j < 5
    ensures 16 + 5 * i + j < |FormDataOf(d)|
    ensures FormDataOf(d)[16 + 5 * i + j] == EducationParts(i, d.educations[i])[j]
    ensures FormDataOf(d)[16 + 5 * i + j].key == IndexedKey("educations", i, EducationKeys[j])
  {
    FormDataBlocks(d);
    EducationsPartsAt(d.educations, i, j);
    var n := |d.educations|;
    assert FormDataOf(d)[16 + 5 * i + j] == FormDataOf(d)[16..16 + 5 * n][5 * i + j];
  }

  /**
   * Field `j` of experience `i` is part 16 + 5N + 7i + j for N educations,
   * under the key `experiences[i][<field j>]`.
   */
  lemma ExperiencePartAt(d: Draft, i: nat, j: nat)
    requires i < |d.experiences| && j < 7
    ensures 16 + 5 * |d.educations| + 7 * i + j < |FormDataOf(d)|
    ensures FormDataOf(d)[16 + 5 * |d.educations| + 7 * i + j] == ExperienceParts(i, d.experiences[i])[j]
    ensures FormDataOf(d)[16 + 5 * |d.educations| + 7 * i + j].key == IndexedKey("experiences", i, ExperienceKeys[j])
  {
    FormDataBlocks(d);
    ExperiencesPartsAt(d.experiences, i, j);
    var n := |d.educations|;
    assert FormDataOf(d)[16 + 5 * n + 7 * i + j] == FormDataOf(d)[16 + 5 * n..][7 * i + j];
  }

  /**
   * An education's texts travel unchanged, a missing end date as "", and
   * the ongoing flag as "1" or "0".
   */
  lemma EducationTexts(d: Draft, i: nat)
    requires i < |d.educations|
    ensures var parts := FormDataOf(d); var e := d.educations[i]; var b := 16 + 5 * i;
      && b + 4 < |parts|
      && parts[b] == Text(IndexedKey("educations", i, "education_degree"), e.degree)
      && parts[b + 1] == Text(IndexedKey("educations", i, "education_institution"), e.institution)
      && parts[b + 2] == Text(IndexedKey("educations", i, "start_date"), e.startDate)
      && parts[b + 3] == Text(IndexedKey("educations", i, "end_date"), OrEmpty(e.endDate))
      && (parts[b + 3].text == "" <==> e.endDate.None? || e.endDate.value == "")
      && parts[b + 4] == Text(IndexedKey("educations", i, "is_ongoing"), FlagText(e.isOngoing))
      && (parts[b + 4].text == "1" <==> e.isOngoing)
      && (parts[b + 4].text == "0" <==> !e.isOngoing)
  {
    EducationPartAt(d, i, 0);
    EducationPartAt(d, i, 1);
    EducationPartAt(d, i, 2);
    EducationPartAt(d, i, 3);
    EducationPartAt(d, i, 4);
  }

  /**
   * An experience's texts travel unchanged, missing optional texts as "",
   * and the current-job flag as "1" or "0".
   */
  lemma ExperienceTexts(d: Draft, i: nat)
    requires i < |d.experiences|
    ensures var parts := FormDataOf(d); var x := d.experiences[i]; var b := 16 + 5 * |d.educations| + 7 * i;
      && b + 6 < |parts|
      && parts[b] == Text(IndexedKey("experiences", i, "company_name"), x.companyName)
      && parts[b + 1] == Text(IndexedKey("experiences", i, "job_title"), x.jobTitle)
      && parts[b + 2] == Text(IndexedKey("experiences", i, "start_date"), x.startDate)
      && parts[b + 3] == Text(IndexedKey("experiences", i, "end_date"), OrEmpty(x.endDate))
      && (parts[b + 3].text == "" <==> x.endDate.None? || x.endDate.value == "")
      && parts[b + 4] == Text(IndexedKey("experiences", i, "description"), OrEmpty(x.description))
      && parts[b + 5] == Text(IndexedKey("experiences", i, "location"), OrEmpty(x.location))
      && parts[b + 6] == Text(IndexedKey("experiences", i, "is_current_job"), FlagText(x.isCurrentJob))
      && (parts[b + 6].text == "1" <==> x.isCurrentJob)
      && (parts[b + 6].text == "0" <==> !x.isCurrentJob)
  {
    ExperiencePartAt(d, i, 0);
    ExperiencePartAt(d, i, 1);
    ExperiencePartAt(d, i, 2);
    ExperiencePartAt(d, i, 3);
    ExperiencePartAt(d, i, 4);
    ExperiencePartAt(d, i, 5);
    ExperiencePartAt(d, i, 6);
  }

  /** `list[i][field]` determines its index and field. */
  lemma IndexedKeyInjective(list: string, i: nat, f: string, i': nat, f': string)
    ensures IndexedKey(list, i, f) == IndexedKey(list, i', f') <==> i == i' && f == f'
  {
    var a, c := NatToString(i), NatToString(i');
    var k, k' := IndexedKey(list, i, f), IndexedKey(list, i', f');
    var p := |list| + 1;
    if k == k' {
      assert k == list + "[" + a + "][" + f + "]";
      assert k' == list + "[" + c + "][" + f' + "]";
      assert k[p + |a|] == ']' && k'[p + |c|] == ']';
      assert |a| == |c|;
      assert a == k[p..p + |a|] == c;
      NatToStringInjective(i, i');
      assert f == k[p + |a| + 2..|k| - 1] == f';
    }
  }

  /** The second character of a key: 'd' for education keys, 'x' for experience keys. */
  lemma IndexedKeySecondChar(list: string, i: nat, f: string)
    requires |list| >= 2
    ensures IndexedKey(list, i, f)[1] == list[1]
  {
  }

  /** Part `p < 16` carries the `p`-th scalar key. */
  lemma TopKeyAt(d: Draft, p: nat)
    requires p < 16
    ensures p < |FormDataOf(d)| && FormDataOf(d)[p].key == TopKeys[p]
  {
    FormDataBlocks(d);
    TopPartsKeys(d);
    assert FormDataOf(d)[p] == FormDataOf(d)[..16][p];
  }

  /** No scalar key has the second letter of "educations" or of "experiences". */
  lemma TopKeySecondChar(k: nat)
    requires k < 16
    ensures |TopKeys[k]| >= 2 && TopKeys[k][1] != 'd' && TopKeys[k][1] != 'x'
  {
  }

  /**
   * The second character of each key tells the blocks apart: 'd' in the
   * education block, 'x' in the experience block, and neither among the
   * scalar keys.
   */
  lemma KeyClass(d: Draft, p: nat)
    requires p < |FormDataOf(d)|
    ensures var key := FormDataOf(d)[p].key; var n := |d.educations|;
      && |key| >= 2
      && (p < 16 ==> key[1] != 'd' && key[1] != 'x')
      && (16 <= p < 16 + 5 * n ==> key[1] == 'd')
      && (16 + 5 * n <= p ==> key[1] == 'x')
  {
    FormDataLength(d);
    var n := |d.educations|;
    if p < 16 {
      TopKeyAt(d, p);
      TopKeySecondChar(p);
    } else if p < 16 + 5 * n {
      var i, j := (p - 16) / 5, (p - 16) % 5;
      EducationPartAt(d, i, j);
      IndexedKeySecondChar("educations", i, EducationKeys[j]);
    } else {
      var i, j := (p - 16 - 5 * n) / 7, (p - 16 - 5 * n) % 7;
      assert i < |d.experiences|;
      ExperiencePartAt(d, i, j);
      IndexedKeySecondChar("experiences", i, ExperienceKeys[j]);
    }
  }

  /** The five education field names are pairwise distinct. */
  lemma EducationKeysInjective(j: nat, j': nat)
    requires j < 5 && j' < 5 && j != j'
    ensures EducationKeys[j] != EducationKeys[j']
  {
  }

  /** The seven experience field names are pairwise distinct. */
  lemma ExperienceKeysInjective(j: nat, j': nat)
    requires j < 7 && j' < 7 && j != j'
    ensures ExperienceKeys[j] != ExperienceKeys[j']
  {
  }

  /** Two parts of the education block share a key only if they are the same part. */
  lemma EducationKeysDistinct(d: Draft, p: nat, q: nat)
    requires 16 <= p < q < 16 + 5 * |d.educations|
    ensures q < |FormDataOf(d)| && FormDataOf(d)[p].key != FormDataOf(d)[q].key
  {
    var i, j := (p - 16) / 5, (p - 16) % 5;
    var i', j' := (q - 16) / 5, (q - 16) % 5;
    assert p == 16 + 5 * i + j && q == 16 + 5 * i' + j';
    EducationPartAt(d, i, j);
    EducationPartAt(d, i', j');
    IndexedKeyInjective("educations", i, EducationKeys[j], i', EducationKeys[j']);
    if i == i' {
      EducationKeysInjective(j, j');
    }
  }

  /** Two parts of the experience block share a key only if they are the same part. */
  lemma ExperienceKeysDistinct(d: Draft, p: nat, q: nat)
    requires 16 + 5 * |d.educations| <= p < q < |FormDataOf(d)|
    ensures FormDataOf(d)[p].key != FormDataOf(d)[q].key
  {
    FormDataLength(d);
    var b := 16 + 5 * |d.educations|;
    var i, j := (p - b) / 7, (p - b) % 7;
    var i', j' := (q - b) / 7, (q - b) % 7;
    assert p == b + 7 * i + j && q == b + 7 * i' + j';
    assert i' < |d.experiences|;
    ExperiencePartAt(d, i, j);
    ExperiencePartAt(d, i', j');
    IndexedKeyInjective("experiences", i, ExperienceKeys[j], i', ExperienceKeys[j']);
    if i == i' {
      ExperienceKeysInjective(j, j');
    }
  }

  /** No two parts of the newer body share a key. */
  lemma FormDataKeysDistinct(d: Draft)
    ensures forall p, q :: 0 <= p < q < |FormDataOf(d)| ==> FormDataOf(d)[p].key != FormDataOf(d)[q].key
  {
    var parts := FormDataOf(d);
    var n := |d.educations|;
    forall p, q | 0 <= p < q < |parts| ensures parts[p].key != parts[q].key {
      KeyClass(d, p);
      KeyClass(d, q);
      if q < 16 {
        TopKeyAt(d, p);
        TopKeyAt(d, q);
        TopKeysDistinct(p, q);
      } else if 16 <= p && q < 16 + 5 * n {
        EducationKeysDistinct(d, p, q);
      } else if 16 + 5 * n <= p {
        ExperienceKeysDistinct(d, p, q);
      }
    }
  }

  /** The scalar keys are pairwise distinct. */
  lemma TopKeysDistinct(p: nat, q: nat)
    requires p < q < 16
    ensures TopKeys[p] != TopKeys[q]
  {
  }

  /** A scalar entry is appended the same way by both versions. */
  lemma ScalarEntrySameInBoth(key: string, v: Value)
    requires !v.EducationList? && !v.ExperienceList? && key != "educations" && key != "experiences"
    ensures LegacyEntryParts(key, v) == EntryParts(key, v)
    ensures |EntryParts(key, v)| == 1
  {
  }

  /** The first version posts eighteen parts under the eighteen keys, the lists whole as JSON. */
  lemma LegacyLayout(d: Draft)
    ensures var parts := LegacyFormDataOf(d);
      && |parts| == 18
      && (forall k :: 0 <= k < 18 ==> parts[k].key == TopKeys[k])
      && parts[16] == EducationsJson("educations", d.educations)
      && parts[17] == ExperiencesJson("experiences", d.experiences)
  {
    LegacyEntriesPartsOnePerEntry(Entries(d));
  }

  /** Over scalar entries the two loops append the same parts. */
  lemma {:induction false} ScalarEntriesSameInBoth(es: seq<(string, Value)>)
    requires forall k :: 0 <= k < |es| ==>
      !es[k].1.EducationList? && !es[k].1.ExperienceList? && es[k].0 != "educations" && es[k].0 != "experiences"
    ensures LegacyEntriesParts(es) == EntriesParts(es)
  {
    if es != [] {
      ScalarEntriesSameInBoth(es[..|es| - 1]);
      ScalarEntrySameInBoth(es[|es| - 1].0, es[|es| - 1].1);
    }
  }

  /** The first version's first sixteen parts are exactly the newer body's scalar parts. */
  lemma LegacyScalarsAgree(d: Draft)
    ensures |LegacyFormDataOf(d)| == 18
    ensures LegacyFormDataOf(d)[..16] == EntriesParts(Entries(d))
  {
    var es := Entries(d);
    var head := es[..16];
    assert es[..18] == es;
    assert es[..17][..16] == head;
    LegacyEntriesPartsOnePerEntry(es);
    ScalarEntriesSameInBoth(head);
    assert LegacyEntriesParts(es) == LegacyEntriesParts(head) + LegacyEntryParts(es[16].0, es[16].1)
      + LegacyEntryParts(es[17].0, es[17].1);
    assert EntriesParts(es) == EntriesParts(head);
  }
}
