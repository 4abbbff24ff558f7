/**
 * The resume-upload page: the file chosen in its file input, whether an
 * upload or a save is in progress, the message shown, and the six-field
 * resume form.
 *
 * Both handlers finish through a timer; the timer's callback is a separate
 * step that can run once per timer started. `fileTimers` and `submitTimers`
 * count the timers started whose callback has not yet run.
 */
module UploadResumePage {
  import opened Wrappers
  import opened Model

  const FileUploadedMessage := "File uploaded successfully! You can now fill out the form below."
  const SavedMessage := "Resume information saved successfully!"

  /** The form's fields, as the page declares them. */
  const FormFields: seq<string> := ["name", "email", "phone", "experience", "education", "skills"]

  /** The form's state: a value per field name. An input can name any field, so the map can gain keys. */
  type FormData = map<string, string>

  /** The form as the page starts it and as a save leaves it: the six fields, all empty. */
  function EmptyForm(): (form: FormData)
    ensures form.Keys == set f | f in FormFields
    ensures forall f :: f in form ==> form[f] == ""
  {
    map["name" := "", "email" := "", "phone" := "", "experience" := "", "education" := "", "skills" := ""]
  }

  /** `{...prev, [name]: value}`: the named field takes the value and every other field keeps its own. */
  function InputChanged(prev: FormData, name: string, value: string): (next: FormData)
    ensures next.Keys == prev.Keys + {name}
    ensures next[name] == value
    ensures forall f :: f in prev && f != name ==> next[f] == prev[f]
  {
    prev[name := value]
  }

  /** Editing one of the declared fields never adds or removes a field. */
  lemma InputChangedKeepsFields(prev: FormData, name: string, value: string)
    requires prev.Keys == EmptyForm().Keys && name in FormFields
    ensures InputChanged(prev, name, value).Keys == EmptyForm().Keys
  {
  }

  class UploadResume {
    var selectedFile: Option<File>
    var uploading: bool
    var message: Option<string>
    var formData: FormData
    var fileTimers: nat
    var submitTimers: nat

    constructor()
      ensures selectedFile == None && !uploading && message == None && formData == EmptyForm()
      ensures fileTimers == 0 && submitTimers == 0
    {
      selectedFile := None;
      uploading := false;
      message := None;
      formData := EmptyForm();
      fileTimers := 0;
      submitTimers := 0;
    }

    /** The user picks a file in the input, or clears it. */
    method SelectFile(file: Option<File>)
      modifies this
      ensures selectedFile == file
      ensures uploading == old(uploading) && message == old(message) && formData == old(formData)
      ensures fileTimers == old(fileTimers) && submitTimers == old(submitTimers)
    {
      selectedFile := file;
    }

    /**
     * `handleFileUpload`: a missing file, then a file that is not a PDF, is
     * reported and nothing else changes; an accepted file starts the
     * upload state with the message cleared, and starts the timer.
     */
    method HandleFileUpload()
      modifies this
      ensures selectedFile == old(selectedFile) && formData == old(formData) && submitTimers == old(submitTimers)
      ensures PdfProblem(old(selectedFile)).Some? ==>
        message == PdfProblem(old(selectedFile)) && uploading == old(uploading) && fileTimers == old(fileTimers)
      ensures PdfProblem(old(selectedFile)).None? ==>
        uploading && message == None && fileTimers == old(fileTimers) + 1
    {
      if selectedFile.None? {
        message := Some(NoFileMessage);
        return;
      }
      if selectedFile.value.mimeType != PdfType {
        message := Some(NotPdfMessage);
        return;
      }
      uploading := true;
      message := None;
      fileTimers := fileTimers + 1;
    }

    /** The upload timer's callback: the upload state ends with the success message. */
    method FileTimerFires()
      requires fileTimers > 0
      modifies this
      ensures !uploading && message == Some(FileUploadedMessage) && fileTimers == old(fileTimers) - 1
      ensures selectedFile == old(selectedFile) && formData == old(formData) && submitTimers == old(submitTimers)
    {
      uploading := false;
      message := Some(FileUploadedMessage);
      fileTimers := fileTimers - 1;
    }

    /** `handleInputChange` for the input called `name` now holding `value`. */
    method HandleInputChange(name: string, value: string)
      modifies this
      ensures formData == InputChanged(old(formData), name, value)
      ensures selectedFile == old(selectedFile) && uploading == old(uploading) && message == old(message)
      ensures fileTimers == old(fileTimers) && submitTimers == old(submitTimers)
    {
      formData := InputChanged(formData, name, value);
    }

    /** `handleFormSubmit`: the save state starts with the message cleared, and the timer starts; the form is kept until then. */
    method HandleFormSubmit()
      modifies this
      ensures uploading && message == None && submitTimers == old(submitTimers) + 1
      ensures selectedFile == old(selectedFile) && formData == old(formData) && fileTimers == old(fileTimers)
    {
      uploading := true;
      message := None;
      submitTimers := submitTimers + 1;
    }

    /** The save timer's callback: the save state ends with the saved message, every field is emptied and the file input is cleared. */
    method SubmitTimerFires()
      requires submitTimers > 0
      modifies this
      ensures !uploading && message == Some(SavedMessage) && formData == EmptyForm() && selectedFile == None
      ensures submitTimers == old(submitTimers) - 1 && fileTimers == old(fileTimers)
    {
      uploading := false;
      message := Some(SavedMessage);
      formData := EmptyForm();
      selectedFile := None;
      submitTimers := submitTimers - 1;
    }
  }
}
