/** The resume record exchanged with the backend, and the conversion from the
    untyped decoded object into it. */
module Resume {
  import opened JsonValue

  datatype Experience = Experience(company: string, jobTitle: string, dates: string, achievements: seq<string>)

  datatype Education = Education(degree: string, year: string)

  datatype ResumeRecord = ResumeRecord(
    name: string,
    contactInfo: string,
    experience: seq<Experience>,
    education: Education,
    skills: seq<string>)

  /** The top-level keys the submit handler demands, in the order it checks them. */
  const RequiredKeys: seq<string> := ["name", "contact_info", "experience", "education", "skills"]

  predicate HasAllKeys(m: map<string, Json>) {
    forall i :: 0 <= i < |RequiredKeys| ==> RequiredKeys[i] in m
  }

  predicate HasText(fields: map<string, Json>, key: string) {
    key in fields && fields[key].JString?
  }

  predicate IsTextList(j: Json) {
    j.JArray? && forall i :: 0 <= i < |j.items| ==> j.items[i].JString?
  }

  predicate IsExperience(j: Json) {
    && j.JObject?
    && HasText(j.fields, "company")
    && HasText(j.fields, "job_title")
    && HasText(j.fields, "dates")
    && "achievements" in j.fields && IsTextList(j.fields["achievements"])
  }

  predicate IsExperienceList(j: Json) {
    j.JArray? && forall i :: 0 <= i < |j.items| ==> IsExperience(j.items[i])
  }

  predicate IsEducation(j: Json) {
    j.JObject? && HasText(j.fields, "degree") && HasText(j.fields, "year")
  }

  /** Every required key that is present holds a value of the shape the
      renderers index into. Presence itself is what the submit handler checks. */
  predicate WellShaped(m: map<string, Json>) {
    && ("name" in m ==> m["name"].JString?)
    && ("contact_info" in m ==> m["contact_info"].JString?)
    && ("experience" in m ==> IsExperienceList(m["experience"]))
    && ("education" in m ==> IsEducation(m["education"]))
    && ("skills" in m ==> IsTextList(m["skills"]))
  }

  function TextList(j: Json): (r: seq<string>)
    requires IsTextList(j)
    ensures |r| == |j.items|
    ensures forall i :: 0 <= i < |r| ==> j.items[i] == JString(r[i])
  {
    seq(|j.items|, i requires 0 <= i < |j.items| => j.items[i].s)
  }

  function ToExperience(j: Json): Experience
    requires IsExperience(j)
  {
    Experience(j.fields["company"].s, j.fields["job_title"].s, j.fields["dates"].s,
               TextList(j.fields["achievements"]))
  }

  function ToExperiences(j: Json): (r: seq<Experience>)
    requires IsExperienceList(j)
    ensures |r| == |j.items|
    ensures forall i :: 0 <= i < |r| ==> r[i] == ToExperience(j.items[i])
  {
    seq(|j.items|, i requires 0 <= i < |j.items| => ToExperience(j.items[i]))
  }

  /** Reads the typed record out of a decoded object that passed validation. */
  function ToRecord(m: map<string, Json>): ResumeRecord
    requires HasAllKeys(m) && WellShaped(m)
  {
    assert "name" == RequiredKeys[0] && "contact_info" == RequiredKeys[1];
    assert "experience" == RequiredKeys[2];
    assert "education" == RequiredKeys[3];
    assert "skills" == RequiredKeys[4];
    ResumeRecord(
      m["name"].s,
      m["contact_info"].s,
      ToExperiences(m["experience"]),
      Education(m["education"].fields["degree"].s, m["education"].fields["year"].s),
      TextList(m["skills"]))
  }

  function TextsToJson(ss: seq<string>): (j: Json)
    ensures IsTextList(j) && TextList(j) == ss
  {
    JArray(seq(|ss|, i requires 0 <= i < |ss| => JString(ss[i])))
  }

  function ExperienceToJson(e: Experience): (j: Json)
    ensures IsExperience(j) && ToExperience(j) == e
  {
    JObject(map["company" := JString(e.company), "job_title" := JString(e.jobTitle),
                "dates" := JString(e.dates), "achievements" := TextsToJson(e.achievements)])
  }

  /** The object the backend is expected to send for a record. */
  function FromRecord(r: ResumeRecord): map<string, Json> {
    map[
      "name" := JString(r.name),
      "contact_info" := JString(r.contactInfo),
      "experience" := JArray(seq(|r.experience|, i requires 0 <= i < |r.experience| => ExperienceToJson(r.experience[i]))),
      "education" := JObject(map["degree" := JString(r.education.degree), "year" := JString(r.education.year)]),
      "skills" := TextsToJson(r.skills)]
  }

  /** Nothing of a record is lost between the backend's object and the typed
      record the renderers consume. */
  lemma RecordRoundTrip(r: ResumeRecord)
    ensures HasAllKeys(FromRecord(r)) && WellShaped(FromRecord(r))
    ensures ToRecord(FromRecord(r)) == r
  {
    var m := FromRecord(r);
    assert HasAllKeys(m);
    var exps := ToExperiences(m["experience"]);
    assert exps == r.experience;
  }
}
