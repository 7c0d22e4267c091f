/**
 * The project grid and its detail modal (src/sections/Projects.jsx): one
 * `active` project, set by a card click and cleared by the Close button, the
 * backdrop, the Escape key, and the section leaving the viewport.
 */
module Projects {
  import opened Wrappers

  datatype Project = Project(title: string, desc: string, link: string, tags: seq<string>)

  /** The five project cards, in grid order (long descriptions and accents omitted). */
  const AllProjects: seq<Project> := [
    Project("Seekure – AI Job Search Assistant",
      "Cross-platform AI job search engine with ATS resume analysis and tailored cover letter generation.",
      "https://seekure.vercel.app/", ["AI", "NLP", "Automation", "Integrations"]),
    Project("CricGenius – Cricket Analytics Platform",
      "Interactive analytics & visualization for match insights with fantasy team generator and AI chatbot.",
      "https://cricgenius.vercel.app/", ["Data Analytics", "Web Scraping", "Visualization"]),
    Project("AICTE Portal Automation",
      "Automated registration & verification with OCR, digital signatures, and audit-ready logs.",
      "https://github.com/AyushKatochh/Portal-Automation", ["Automation", "OCR", "AI", "Chatbot"]),
    Project("SpeakBee – Intelligent Voice Assistant",
      "Language-agnostic voice assistant with transcription, translation, reminders, and diarization.",
      "https://github.com/harsh8423/speakbee", ["AI", "Speech", "ASR", "Next.js"]),
    Project("Online Hackathon Hosting Platform",
      "MERN platform to host hackathons with GitHub integration, Kanban, tasks, and Drive sync.",
      "https://hackathon.skillmingle.in/", ["MERN", "APIs", "Kanban", "Hackathons"])
  ]

  class ProjectsSection {
    var active: Option<Project>

    /** Whatever is open is one of the cards. */
    ghost predicate Valid()
      reads this
    {
      active.Some? ==> active.value in AllProjects
    }

    /**
     * What `ProjectModal` renders for the current `active`: nothing while it
     * is null, otherwise the dialog of one of the five cards.
     */
    function ModalShown(): (shown: Option<Project>)
      requires Valid()
      reads this
      ensures shown.None? <==> active.None?
      ensures shown.Some? ==> shown.value in AllProjects && shown == active
    {
      active
    }

    constructor ()
      ensures Valid() && active == None
    {
      active := None;
    }

    /** `onOpen` of the card at `index`. */
    method OpenCard(index: nat)
      requires Valid()
      requires index < |AllProjects|
      modifies this
      ensures Valid()
      ensures active == Some(AllProjects[index])
      ensures ModalShown() == Some(AllProjects[index])
    {
      active := Some(AllProjects[index]);
    }

    /** `onClose`, which the Close button, the backdrop and the Escape key all call. */
    method OnClose()
      requires Valid()
      modifies this
      ensures Valid()
      ensures active == None && ModalShown() == None
    {
      active := None;
    }

    /** The modal's document keydown listener, registered before the null check, so it runs while closed too. */
    method KeyDown(key: string)
      requires Valid()
      modifies this
      ensures Valid()
      ensures key == "Escape" ==> active == None
      ensures key != "Escape" ==> active == old(active)
      ensures old(active) == None ==> active == None
    {
      if key == "Escape" {
        OnClose();
      }
    }

    /** A click inside the modal card, outside its Close button: propagation stops, so the backdrop never sees it. */
    method ModalCardClick()
      requires Valid()
      ensures active == old(active)
    {
    }

    /** The intersection observer's callback for the section. */
    method ObserverReport(isIntersecting: bool)
      requires Valid()
      modifies this
      ensures Valid()
      ensures !isIntersecting ==> active == None
      ensures isIntersecting ==> active == old(active)
    {
      if !isIntersecting {
        active := None;
      }
    }
  }
}
