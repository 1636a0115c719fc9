/** How the dialogs, the list controllers and the profile page fit together
    (src/pages/Profile.tsx passes its handlers to src/components/Formacion.tsx and
    src/components/ExpLaboral.tsx, which pass `handleSave` to the dialogs).  Because the page's
    handlers catch every error, the promise a dialog awaits always resolves: a valid form is
    always followed by the dialog closing, and the dialog's own save-failure message can never
    appear. */
module ProfileWiring {
  import opened Wrappers
  import opened Types
  import opened FormRules
  import Selection
  import Profile
  import EducationModal
  import WorkExperienceModal

  /** One press of the education dialog's save button, carried through the list to the page:
      the `reply` is what the store answers to the insert or update. */
  method SaveEducation(dialog: EducationModal.EducationDialog, list: Selection.Controller<Education>,
                       page: Profile.ProfilePage, today: int, parse: string -> Option<int>,
                       user: Option<string>, reply: Remote<Education>)
    requires "submit" !in dialog.errors
    modifies dialog, list, page
    ensures "submit" !in dialog.errors
    ensures EducationModal.ValidateEducationForm(old(dialog.formData), today, parse) == map[] ==>
      && !list.isModalOpen && list.selected == None
      && dialog.formData == EducationModal.EmptyForm && !dialog.isSubmitting
    ensures EducationModal.ValidateEducationForm(old(dialog.formData), today, parse) != map[] ==>
      && list.isModalOpen == old(list.isModalOpen) && list.selected == old(list.selected)
      && page.education == old(page.education)
  {
    var save := dialog.BeginSubmit(today, parse);
    if save.Some? {
      var call := Selection.ChooseSave(list.selected, EducationId, save.value);
      var settled: Outcome;
      match call {
        case UpdateCall(id, _) => settled := page.UpdateEducation(user, id, reply);
        case AddCall(_) => settled := page.AddEducation(user, reply);
      }
      var _ := list.HandleSave(EducationId, save.value, settled);
      var closeCalled := dialog.FinishSubmit(settled);
      if closeCalled {
        list.Close();
      }
    }
  }

  /** The same for the work-experience dialog. */
  method SaveWorkExperience(dialog: WorkExperienceModal.WorkDialog, list: Selection.Controller<WorkExperience>,
                            page: Profile.ProfilePage, today: int, parse: string -> Option<int>,
                            user: Option<string>, reply: Remote<WorkExperience>)
    requires "submit" !in dialog.errors
    modifies dialog, list, page
    ensures "submit" !in dialog.errors
    ensures WorkExperienceModal.ValidateWorkForm(old(dialog.formData), today, parse) == map[] ==>
      && !list.isModalOpen && list.selected == None
      && dialog.formData == WorkExperienceModal.EmptyForm && !dialog.isSubmitting
    ensures WorkExperienceModal.ValidateWorkForm(old(dialog.formData), today, parse) != map[] ==>
      && list.isModalOpen == old(list.isModalOpen) && list.selected == old(list.selected)
      && page.workExperience == old(page.workExperience)
  {
    var save := dialog.BeginSubmit(today, parse);
    if save.Some? {
      var call := Selection.ChooseSave(list.selected, WorkExperienceId, save.value);
      var settled: Outcome;
      match call {
        case UpdateCall(id, _) => settled := page.UpdateWorkExperience(user, id, reply);
        case AddCall(_) => settled := page.AddWorkExperience(user, reply);
      }
      var _ := list.HandleSave(WorkExperienceId, save.value, settled);
      var closeCalled := dialog.FinishSubmit(settled);
      if closeCalled {
        list.Close();
      }
    }
  }
}
