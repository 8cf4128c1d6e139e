/** The admin page's state (frontend/app/admin/page.tsx): the two upload
    handlers and the editors of the initial chat questions. The API client's
    calls are parameters; alerts are collected in the order they are shown,
    and each reload of the document list that a handler starts is counted. */
module AdminPage {
  import opened Common
  import opened Text

  /** One initial question: its text, 'text' or 'multiple-choice', and its
      options when it has any. */
  datatype Question = Question(question: string, kind: string, options: Option<seq<string>>)

  /** `s.filter((_, i) => i !== index)`. */
  function WithoutIndex<T>(s: seq<T>, index: int): (r: seq<T>)
    ensures 0 <= index < |s| ==> |r| == |s| - 1 && r == s[..index] + s[index + 1..]
    ensures !(0 <= index < |s|) ==> r == s
  {
    if |s| == 0 then []
    else
      var front := s[..|s| - 1];
      var rest := WithoutIndex(front, index);
      if index == |s| - 1 then rest
      else
        assert 0 <= index < |front| ==> s[index + 1..] == front[index + 1..] + [s[|s| - 1]];
        rest + [s[|s| - 1]]
  }

  /** `opts.filter(opt => opt.trim())`: the options that are not blank, in order. */
  function NonBlank(opts: seq<string>): (r: seq<string>)
    ensures forall o :: o in r <==> o in opts && !IsJsBlank(o)
    ensures |r| <= |opts|
  {
    if |opts| == 0 then []
    else
      var front := opts[..|opts| - 1];
      var last := opts[|opts| - 1];
      assert opts == front + [last];
      NonBlank(front) + (if IsJsBlank(last) then [] else [last])
  }

  /** The option filter keeps order: the kept options of `a + b` are those
      of `a` followed by those of `b`. */
  lemma {:induction false} NonBlankAppend(a: seq<string>, b: seq<string>)
    ensures NonBlank(a + b) == NonBlank(a) + NonBlank(b)
    decreases |b|
  {
    if |b| == 0 {
      assert a + b == a;
    } else {
      var b' := b[..|b| - 1];
      var last := b[|b| - 1];
      var kept := if IsJsBlank(last) then [] else [last];
      assert (a + b)[..|a + b| - 1] == a + b';
      assert (a + b)[|a + b| - 1] == last;
      NonBlankAppend(a, b');
      calc {
        NonBlank(a + b);
        NonBlank(a + b') + kept;
        (NonBlank(a) + NonBlank(b')) + kept;
        NonBlank(a) + (NonBlank(b') + kept);
      }
    }
  }

  /** A single option is kept exactly when it is not blank. */
  lemma NonBlankOne(o: string)
    ensures NonBlank([o]) == if IsJsBlank(o) then [] else [o]
  {
    assert [o][..0] == [];
  }

  /** The label "Add Option" gives the `n`-th option. */
  function OptionLabel(n: nat): (r: string)
    ensures StartsWith(r, "Option ") && r[7..] == NatToString(n)
  {
    var r := "Option " + NatToString(n);
    assert r[..7] == "Option ";
    r
  }

  /** The kind `handleUrlUpload` sends. */
  function IngestKind(uploadType: string): (r: string)
    ensures r == "podcast" <==> uploadType == "podcast"
    ensures r in {"podcast", "article"}
  {
    if uploadType == "podcast" then "podcast" else "article"
  }

  /** The alert after a successful URL ingest. */
  function IngestedAlert(uploadType: string): string {
    (if uploadType == "podcast" then "Podcast" else "Article") + " ingested successfully!"
  }

  const DEFAULT_OPTIONS := [OptionLabel(1), OptionLabel(2)]

  /** The page's initial chat-setting questions: two free-text questions and a
      multiple-choice question on experience level with four options. */
  const INITIAL_QUESTIONS := [
    Question("What are you looking to achieve in your career?", "text", None),
    Question("What skills would you like to develop?", "text", None),
    Question("What is your experience level?", "multiple-choice",
             Some(["Entry Level (0-2 years)", "Mid Level (3-5 years)", "Senior (6-10 years)", "Expert (10+ years)"]))
  ]

  /** A selected file, as far as the page hands it on. */
  datatype SelectedFile = SelectedFile(name: string, content: seq<bv8>)

  class AdminState {
    var uploadType: string
    var uploading: bool
    var url: string
    var selectedFile: Option<SelectedFile>
    var questions: seq<Question>
    var newQuestion: string
    var newQuestionType: string
    var newOptions: seq<string>
    var alerts: seq<string>
    var reloads: nat

    constructor ()
      ensures uploadType == "file" && !uploading && url == "" && selectedFile.None?
      ensures questions == INITIAL_QUESTIONS
      ensures |questions| == 3 && questions[2].options.Some? && |questions[2].options.value| == 4
      ensures newQuestion == "" && newQuestionType == "text" && newOptions == [""]
      ensures alerts == [] && reloads == 0
    {
      uploadType := "file";
      uploading := false;
      url := "";
      selectedFile := None;
      questions := INITIAL_QUESTIONS;
      newQuestion := "";
      newQuestionType := "text";
      newOptions := [""];
      alerts := [];
      reloads := 0;
    }

    /** `handleFileUpload`: nothing without a selected file; otherwise the
        upload, an alert either way, and the selection cleared and the list
        reloaded only on success. */
    method HandleFileUpload(upload: SelectedFile -> Result<(), string>)
      modifies this
      ensures selectedFile == old(selectedFile) || selectedFile.None?
      ensures old(selectedFile).None? ==>
        alerts == old(alerts) && reloads == old(reloads) && uploading == old(uploading) && selectedFile == old(selectedFile)
      ensures old(selectedFile).Some? ==>
        var result := upload(old(selectedFile).value);
        !uploading
        && (result.Ok? ==>
              alerts == old(alerts) + ["Document uploaded successfully!"] && selectedFile.None? && reloads == old(reloads) + 1)
        && (result.Err? ==>
              alerts == old(alerts) + ["Upload failed: " + result.error]
              && selectedFile == old(selectedFile) && reloads == old(reloads))
      ensures url == old(url) && questions == old(questions) && uploadType == old(uploadType)
      ensures newQuestion == old(newQuestion) && newQuestionType == old(newQuestionType) && newOptions == old(newOptions)
    {
      if selectedFile.None? {
        return;
      }
      uploading := true;
      var result := upload(selectedFile.value);
      if result.Ok? {
        alerts := alerts + ["Document uploaded successfully!"];
        selectedFile := None;
        reloads := reloads + 1;
      } else {
        alerts := alerts + ["Upload failed: " + result.error];
      }
      uploading := false;
    }

    /** `handleUrlUpload`: nothing for a blank URL; otherwise the ingest of
        the URL as typed, with kind 'podcast' or 'article'. */
    method HandleUrlUpload(ingest: (string, string) -> Result<(), string>)
      modifies this
      ensures IsJsBlank(old(url)) ==>
        alerts == old(alerts) && reloads == old(reloads) && uploading == old(uploading) && url == old(url)
      ensures !IsJsBlank(old(url)) ==>
        var result := ingest(old(url), IngestKind(uploadType));
        !uploading
        && (result.Ok? ==> alerts == old(alerts) + [IngestedAlert(uploadType)] && url == "" && reloads == old(reloads) + 1)
        && (result.Err? ==>
              alerts == old(alerts) + ["Ingestion failed: " + result.error] && url == old(url) && reloads == old(reloads))
      ensures selectedFile == old(selectedFile) && questions == old(questions) && uploadType == old(uploadType)
      ensures newQuestion == old(newQuestion) && newQuestionType == old(newQuestionType) && newOptions == old(newOptions)
    {
      if IsJsBlank(url) {
        return;
      }
      uploading := true;
      var result := ingest(url, IngestKind(uploadType));
      if result.Ok? {
        alerts := alerts + [IngestedAlert(uploadType)];
        url := "";
        reloads := reloads + 1;
      } else {
        alerts := alerts + ["Ingestion failed: " + result.error];
      }
      uploading := false;
    }

    /** Typing into question `index`. */
    method EditQuestion(index: nat, text: string)
      requires index < |questions|
      modifies this`questions
      ensures questions == old(questions)[index := old(questions)[index].(question := text)]
    {
      var updated := questions;
      updated := updated[index := updated[index].(question := text)];
      questions := updated;
    }

    /** Choosing a kind for question `index`; a question switched to
        multiple choice without options gets "Option 1" and "Option 2". */
    method SetQuestionKind(index: nat, kind: string)
      requires index < |questions|
      modifies this`questions
      ensures |questions| == |old(questions)|
      ensures forall i :: 0 <= i < |questions| && i != index ==> questions[i] == old(questions)[i]
      ensures questions[index].question == old(questions)[index].question && questions[index].kind == kind
      ensures kind == "multiple-choice" && old(questions)[index].options.None? ==>
        questions[index].options == Some(DEFAULT_OPTIONS)
      ensures !(kind == "multiple-choice" && old(questions)[index].options.None?) ==>
        questions[index].options == old(questions)[index].options
    {
      var q := questions[index].(kind := kind);
      if kind == "multiple-choice" && q.options.None? {
        q := q.(options := Some(DEFAULT_OPTIONS));
      }
      questions := questions[index := q];
    }

    /** The remove button of question `index`. */
    method RemoveQuestion(index: nat)
      requires index < |questions|
      modifies this`questions
      ensures questions == WithoutIndex(old(questions), index)
      ensures |questions| == |old(questions)| - 1
    {
      questions := WithoutIndex(questions, index);
    }

    /** Typing into option `optionIndex` of question `index`. */
    method EditOption(index: nat, optionIndex: nat, text: string)
      requires index < |questions|
      requires questions[index].options.Some? ==> optionIndex < |questions[index].options.value|
      modifies this`questions
      ensures old(questions)[index].options.None? ==> questions == old(questions)
      ensures old(questions)[index].options.Some? ==>
        var q := old(questions)[index];
        questions == old(questions)[index := q.(options := Some(q.options.value[optionIndex := text]))]
    {
      var q := questions[index];
      if q.options.Some? {
        questions := questions[index := q.(options := Some(q.options.value[optionIndex := text]))];
      }
    }

    /** The remove button of option `optionIndex` of question `index`. */
    method RemoveOption(index: nat, optionIndex: nat)
      requires index < |questions|
      modifies this`questions
      ensures old(questions)[index].options.None? ==> questions == old(questions)
      ensures old(questions)[index].options.Some? ==>
        var q := old(questions)[index];
        questions == old(questions)[index := q.(options := Some(WithoutIndex(q.options.value, optionIndex)))]
    {
      var q := questions[index];
      if q.options.Some? {
        questions := questions[index := q.(options := Some(WithoutIndex(q.options.value, optionIndex)))];
      }
    }

    /** "Add Option" on question `index`: "Option n+1" for `n` options. */
    method AddOption(index: nat)
      requires index < |questions|
      modifies this`questions
      ensures old(questions)[index].options.None? ==> questions == old(questions)
      ensures old(questions)[index].options.Some? ==>
        var q := old(questions)[index];
        questions == old(questions)[index := q.(options := Some(q.options.value + [OptionLabel(|q.options.value| + 1)]))]
    {
      var q := questions[index];
      if q.options.Some? {
        var opts := q.options.value;
        opts := opts + [OptionLabel(|opts| + 1)];
        questions := questions[index := q.(options := Some(opts))];
      }
    }

    /** Typing into option `index` of the new question. */
    method EditNewOption(index: nat, text: string)
      requires index < |newOptions|
      modifies this`newOptions
      ensures newOptions == old(newOptions)[index := text]
    {
      newOptions := newOptions[index := text];
    }

    /** The remove button of option `index` of the new question. */
    method RemoveNewOption(index: nat)
      requires index < |newOptions|
      modifies this`newOptions
      ensures newOptions == WithoutIndex(old(newOptions), index)
    {
      newOptions := WithoutIndex(newOptions, index);
    }

    /** "Add Option" on the new question: one empty option more. */
    method AddNewOption()
      modifies this`newOptions
      ensures newOptions == old(newOptions) + [""]
    {
      newOptions := newOptions + [""];
    }

    /** "Add Question": nothing for blank text; otherwise the question goes
        at the end, a multiple-choice one with its non-blank options, and
        the form is reset. */
    method AddQuestion()
      modifies this`questions, this`newQuestion, this`newQuestionType, this`newOptions
      ensures IsJsBlank(old(newQuestion)) ==>
        questions == old(questions) && newQuestion == old(newQuestion)
        && newQuestionType == old(newQuestionType) && newOptions == old(newOptions)
      ensures !IsJsBlank(old(newQuestion)) ==>
        questions == old(questions) + [NewQuestion(old(newQuestion), old(newQuestionType), old(newOptions))]
        && newQuestion == "" && newQuestionType == "text" && newOptions == [""]
    {
      if !IsJsBlank(newQuestion) {
        var q := Question(newQuestion, newQuestionType, None);
        if newQuestionType == "multiple-choice" {
          q := q.(options := Some(NonBlank(newOptions)));
        }
        questions := questions + [q];
        newQuestion := "";
        newQuestionType := "text";
        newOptions := [""];
      }
    }
  }

  /** The question "Add Question" builds from the form. */
  function NewQuestion(text: string, kind: string, options: seq<string>): (r: Question)
    ensures r.question == text && r.kind == kind
    ensures kind == "multiple-choice" <==> r.options.Some?
    ensures r.options.Some? ==> forall o :: o in r.options.value <==> o in options && !IsJsBlank(o)
  {
    Question(text, kind, if kind == "multiple-choice" then Some(NonBlank(options)) else None)
  }

  /** Removing entry `i` keeps every other entry, in order. */
  lemma RemovalKeepsOthers<T>(s: seq<T>, index: nat)
    requires index < |s|
    ensures forall i :: 0 <= i < index ==> WithoutIndex(s, index)[i] == s[i]
    ensures forall i :: index < i < |s| ==> WithoutIndex(s, index)[i - 1] == s[i]
  {
  }
}
