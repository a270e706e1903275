/** The sample syllabus table and `SyllabusMapper.get_related_topics`. */
module Syllabus {

  /** `SYLLABUS`: subject, then grade, then the topics in the order listed. */
  const Table: map<string, map<string, seq<string>>> := map[
    "mathematics" := map[
      "5" := ["Numbers", "Operations", "Fractions", "Geometry", "Measurement"],
      "6" := ["Integers", "Algebra", "Ratio and Proportion", "Basic Geometry"],
      "7" := ["Number System", "Algebra", "Data Handling", "Mensuration"]
    ],
    "science" := map[
      "5" := ["Plants", "Animals", "Natural Resources", "Environment"],
      "6" := ["Food", "Materials", "Living Organisms", "Motion"],
      "7" := ["Nutrition", "Fibre to Fabric", "Heat", "Acids and Bases"]
    ]
  ]

  /** `str.lower()` on the ASCII letters A to Z. */
  function LowerChar(c: char): (d: char)
    ensures 'A' <= c <= 'Z' ==> d as int == c as int + 32
    ensures !('A' <= c <= 'Z') ==> d == c
  {
    if 'A' <= c <= 'Z' then (c as int + 32) as char else c
  }

  function Lower(s: string): (r: string)
    ensures |r| == |s|
    ensures forall i :: 0 <= i < |s| ==> r[i] == LowerChar(s[i])
  {
    if s == [] then [] else [LowerChar(s[0])] + Lower(s[1..])
  }

  /** `get_related_topics`: the subject is looked up in lower case, the grade as given,
      and a missing subject or grade gives the empty list. */
  function GetRelatedTopics(subject: string, grade: string): (topics: seq<string>)
    ensures Lower(subject) in Table && grade in Table[Lower(subject)] ==> topics == Table[Lower(subject)][grade]
    ensures !(Lower(subject) in Table && grade in Table[Lower(subject)]) ==> topics == []
  {
    var byGrade := if Lower(subject) in Table then Table[Lower(subject)] else map[];
    if grade in byGrade then byGrade[grade] else []
  }

  /** Only mathematics and science, grades 5 to 7, have topics. */
  lemma TopicsExactlyForListedPairs(subject: string, grade: string)
    ensures GetRelatedTopics(subject, grade) != [] <==>
      (Lower(subject) == "mathematics" || Lower(subject) == "science") && grade in ["5", "6", "7"]
  {
  }

  lemma {:induction false} LowerIdempotent(s: string)
    ensures Lower(Lower(s)) == Lower(s)
  {
    if s != [] {
      LowerIdempotent(s[1..]);
      assert Lower(s)[1..] == Lower(s[1..]);
    }
  }

  /** Subjects differing only in the case of ASCII letters give the same topics, and
      the lookup of a subject agrees with that of its lower-case form. */
  lemma SubjectMatchIgnoresCase(subject: string, other: string, grade: string)
    requires Lower(subject) == Lower(other)
    ensures GetRelatedTopics(subject, grade) == GetRelatedTopics(other, grade)
    ensures GetRelatedTopics(subject, grade) == GetRelatedTopics(Lower(subject), grade)
  {
    LowerIdempotent(subject);
  }

  /** A listed pair gives its stored list in order: mathematics in any letter case,
      grade "5". */
  lemma MathematicsGradeFive(subject: string)
    requires Lower(subject) == "mathematics"
    ensures GetRelatedTopics(subject, "5") == ["Numbers", "Operations", "Fractions", "Geometry", "Measurement"]
  {
  }
}
